/** The Queen/King yield-management engine of yield_management.py: occupancy
    with an optional excluded stay, perfect matches, split stays over every
    interior split day, goodwill reallocations (Queen guest moved to a King
    room) and the priority-plus-confidence ranking capped at eight. Rooms and
    stays are the query results, in query order. */
module YieldEngine {
  import opened Common
  import opened Ledger
  import Sorting

  datatype Request = Request(checkIn: int, checkOut: int, preferredTier: Option<string>,
                             maxBudget: Option<real>)

  datatype Priority = Excellent | Good | Acceptable | LastResort

  datatype Kind = PerfectMatch | SplitStay | UpgradeReallocation

  /** One entry of a solution's `rooms` list. */
  datatype Segment = Segment(roomId: int, tier: string, checkIn: int, checkOut: int, nights: int)

  /** A `BookingSolution`; `movedStay`/`newRoom` are the reallocation details. */
  datatype Solution = Solution(kind: Kind, priority: Priority, segments: seq<Segment>, price: real,
                               upgradeBenefit: Option<string>, confidence: real,
                               movedStay: Option<int>, newRoom: Option<int>,
                               requiresGuestApproval: bool)

  function Nights(req: Request): int {
    req.checkOut - req.checkIn
  }

  // ---------------------------------------------------------------- occupancy

  /** Whether a stay puts its room into `_get_occupied_rooms(a, b, exclude)`. */
  predicate Blocks(st: Stay, a: int, b: int, exclude: Option<int>) {
    HoldsRoom(st.status) && Overlaps(st, a, b)
    && !(IntTruthy(exclude) && st.id == exclude.value)
    && st.roomId != 0
  }

  /** Some stay in room `x` blocks [a, b). */
  ghost predicate BlockedBySome(stays: seq<Stay>, x: int, a: int, b: int, exclude: Option<int>) {
    exists i :: 0 <= i < |stays| && stays[i].roomId == x && Blocks(stays[i], a, b, exclude)
  }

  /** `_get_occupied_rooms`: the room of every stay that blocks [a, b). */
  function OccupiedRooms(stays: seq<Stay>, a: int, b: int, exclude: Option<int>): seq<int> {
    if stays == [] then []
    else
      OccupiedRooms(stays[..|stays| - 1], a, b, exclude)
      + (if Blocks(stays[|stays| - 1], a, b, exclude) then [stays[|stays| - 1].roomId] else [])
  }

  /** The occupied list holds exactly the rooms some blocking stay sits in. */
  lemma {:induction false} OccupiedRoomsMembers(stays: seq<Stay>, a: int, b: int, exclude: Option<int>)
    ensures forall x :: x in OccupiedRooms(stays, a, b, exclude) <==> BlockedBySome(stays, x, a, b, exclude)
  {
    if stays != [] {
      OccupiedRoomsMembers(stays[..|stays| - 1], a, b, exclude);
      var st := stays[|stays| - 1];
      assert forall x :: BlockedBySome(stays, x, a, b, exclude) <==>
        BlockedBySome(stays[..|stays| - 1], x, a, b, exclude) || (x == st.roomId && Blocks(st, a, b, exclude)) by {
        forall x ensures BlockedBySome(stays, x, a, b, exclude) ==>
          BlockedBySome(stays[..|stays| - 1], x, a, b, exclude) || (x == st.roomId && Blocks(st, a, b, exclude)) {
          if BlockedBySome(stays, x, a, b, exclude) {
            var i :| 0 <= i < |stays| && stays[i].roomId == x && Blocks(stays[i], a, b, exclude);
            if i < |stays| - 1 {
              assert stays[..|stays| - 1][i] == stays[i];
            }
          }
        }
      }
    }
  }

  /** A room is occupied for [a, b) exactly when a stay that is Activa or
      Pendiente de Cierre and sits in that room starts before b and has no
      check-out or checks out after a. */
  lemma {:induction false} OccupiedExactly(stays: seq<Stay>, a: int, b: int, roomId: int)
    requires roomId != 0
    ensures roomId in OccupiedRooms(stays, a, b, None) <==>
      exists i :: 0 <= i < |stays| && stays[i].roomId == roomId && stays[i].status != Finalized
        && stays[i].checkIn < b && (stays[i].checkOut.None? || stays[i].checkOut.value > a)
  {
    OccupiedRoomsMembers(stays, a, b, None);
  }

  /** Excluding a stay removes exactly that stay's contribution: a room stays
      occupied iff some other stay blocks it. */
  lemma {:induction false} ExcludeOnlyThatStay(stays: seq<Stay>, a: int, b: int, e: int, roomId: int)
    requires e != 0
    ensures roomId in OccupiedRooms(stays, a, b, Some(e)) <==>
      exists i :: 0 <= i < |stays| && stays[i].roomId == roomId && stays[i].id != e
        && Blocks(stays[i], a, b, None)
    ensures roomId in OccupiedRooms(stays, a, b, Some(e)) ==> roomId in OccupiedRooms(stays, a, b, None)
  {
    OccupiedRoomsMembers(stays, a, b, Some(e));
    OccupiedRoomsMembers(stays, a, b, None);
  }

  // ------------------------------------------------------------------ pricing

  /** `pricing_base.get(tier, 3000)`. */
  function BasePrice(tier: string): real {
    match tier
    case "Queen" => 2500.0
    case "King" => 4000.0
    case _ => 3000.0
  }

  /** `_calculate_room_price_partial`: base(tier) times the nights of [a, b). */
  function RoomPrice(tier: string, a: int, b: int): real {
    BasePrice(tier) * ((b - a) as real)
  }

  /** A night costs 2500 in a Queen room, 4000 in a King room and 3000 in
      any other; so a King night costs more than any other night, and a Queen night less;
      cutting a stay at any day leaves the total price of one room unchanged,
      so a split into the same tier costs what the whole stay costs. */
  lemma RoomPriceRules(tier: string, other: string, a: int, m: int, b: int)
    requires a < b
    ensures tier == "King" && other != "King" ==> RoomPrice(tier, a, b) > RoomPrice(other, a, b)
    ensures tier == "Queen" && other != "Queen" ==> RoomPrice(tier, a, b) < RoomPrice(other, a, b)
    ensures RoomPrice(tier, a, m) + RoomPrice(tier, m, b) == RoomPrice(tier, a, b)
    ensures RoomPrice(tier, a, b) ==
      (if tier == "Queen" then 2500.0 else if tier == "King" then 4000.0 else 3000.0) * ((b - a) as real)
  {
    var n := (b - a) as real;
    assert n > 0.0;
    assert BasePrice(tier) * ((m - a) as real) + BasePrice(tier) * ((b - m) as real)
        == BasePrice(tier) * (((m - a) as real) + ((b - m) as real));
    if tier == "King" && other != "King" {
      assert BasePrice(other) <= 3000.0;
      assert BasePrice(tier) * n > BasePrice(other) * n;
    }
    if tier == "Queen" && other != "Queen" {
      assert BasePrice(other) >= 3000.0;
      assert BasePrice(tier) * n < BasePrice(other) * n;
    }
  }

  /** `max_budget` is enforced only when it is truthy. */
  predicate WithinBudget(price: real, req: Request) {
    !(RealTruthy(req.maxBudget) && price > req.maxBudget.value)
  }

  // ----------------------------------------------------------- perfect match

  /** Free rooms, narrowed to the preferred tier when one is given. */
  function PerfectCandidates(rooms: seq<Room>, stays: seq<Stay>, req: Request): seq<Room> {
    FreeRoomsOfTier(rooms, OccupiedRooms(stays, req.checkIn, req.checkOut, None), req.preferredTier)
  }

  lemma PerfectCandidatesMembers(rooms: seq<Room>, stays: seq<Stay>, req: Request)
    ensures forall x :: x in PerfectCandidates(rooms, stays, req) <==> (x in rooms
      && x.id !in OccupiedRooms(stays, req.checkIn, req.checkOut, None)
      && (StrTruthy(req.preferredTier) ==> x.tier == req.preferredTier.value))
  {
    FreeRoomsOfTierMembers(rooms, OccupiedRooms(stays, req.checkIn, req.checkOut, None), req.preferredTier);
  }

  function PerfectPriority(room: Room, req: Request): Priority {
    if StrTruthy(req.preferredTier) then Excellent
    else if room.tier == "King" then Excellent
    else Good
  }

  /** The body of the perfect-match loop for one candidate room. */
  function PerfectMatchFor(room: Room, req: Request): seq<Solution> {
    var price := RoomPrice(room.tier, req.checkIn, req.checkOut);
    if !WithinBudget(price, req) then []
    else [Solution(PerfectMatch, PerfectPriority(room, req),
                   [Segment(room.id, room.tier, req.checkIn, req.checkOut, Nights(req))],
                   price, None, 0.95, None, None, false)]
  }

  function PerfectMatchesOver(cands: seq<Room>, req: Request): seq<Solution>
  {
    if cands == [] then []
    else PerfectMatchesOver(cands[..|cands| - 1], req) + PerfectMatchFor(cands[|cands| - 1], req)
  }

  function PerfectMatches(rooms: seq<Room>, stays: seq<Stay>, req: Request): seq<Solution> {
    PerfectMatchesOver(PerfectCandidates(rooms, stays, req), req)
  }

  /** `_find_perfect_matches`. */
  method FindPerfectMatches(rooms: seq<Room>, stays: seq<Stay>, req: Request) returns (sols: seq<Solution>)
    ensures sols == PerfectMatches(rooms, stays, req)
  {
    var occupied := OccupiedRooms(stays, req.checkIn, req.checkOut, None);
    var available := FreeRoomsOfTier(rooms, occupied, req.preferredTier);
    sols := [];
    var i := 0;
    while i < |available|
      invariant 0 <= i <= |available|
      invariant sols == PerfectMatchesOver(available[..i], req)
    {
      assert available[..i + 1][..i] == available[..i];
      assert PerfectMatchesOver(available[..i + 1], req)
        == PerfectMatchesOver(available[..i], req) + PerfectMatchFor(available[i], req);
      var found := PerfectMatchCandidate(available[i], req);
      sols := sols + found;
      i := i + 1;
    }
    assert available[..|available|] == available;
  }

  /** The perfect-match loop body for one room: skipped when over budget. */
  method PerfectMatchCandidate(room: Room, req: Request) returns (found: seq<Solution>)
    ensures found == PerfectMatchFor(room, req)
  {
    var price := RoomPrice(room.tier, req.checkIn, req.checkOut);
    if RealTruthy(req.maxBudget) && price > req.maxBudget.value {
      return [];
    }
    var priority := Excellent;
    if !StrTruthy(req.preferredTier) {
      if room.tier == "King" {
        priority := Excellent;
      } else {
        priority := Good;
      }
    }
    found := [Solution(PerfectMatch, priority, [Segment(room.id, room.tier, req.checkIn, req.checkOut, Nights(req))],
                       price, None, 0.95, None, None, false)];
  }

  lemma {:induction false} PerfectMatchesOverFrom(cands: seq<Room>, req: Request, k: nat) returns (room: Room)
    requires k < |PerfectMatchesOver(cands, req)|
    ensures room in cands && PerfectMatchFor(room, req) == [PerfectMatchesOver(cands, req)[k]]
  {
    var p := cands[..|cands| - 1];
    if k < |PerfectMatchesOver(p, req)| {
      room := PerfectMatchesOverFrom(p, req, k);
    } else {
      room := cands[|cands| - 1];
    }
  }

  /** Every perfect match is a single free room of the preferred tier (when
      one is given), within budget, for the whole request, at base × nights,
      with confidence 0.95; its priority is EXCELLENT when a tier was asked
      for, and otherwise EXCELLENT for King and GOOD for other rooms. */
  lemma PerfectMatchSound(rooms: seq<Room>, stays: seq<Stay>, req: Request, k: nat) returns (room: Room)
    requires k < |PerfectMatches(rooms, stays, req)|
    ensures room in rooms && room.id !in OccupiedRooms(stays, req.checkIn, req.checkOut, None)
    ensures StrTruthy(req.preferredTier) ==> room.tier == req.preferredTier.value
    ensures var s := PerfectMatches(rooms, stays, req)[k];
      s.kind == PerfectMatch && s.segments == WholeStay(room, req) && s.confidence == 0.95
      && s.price == BasePrice(room.tier) * (Nights(req) as real) && WithinBudget(s.price, req)
      && s.priority == (if StrTruthy(req.preferredTier) || room.tier == "King" then Excellent else Good)
  {
    var cands := PerfectCandidates(rooms, stays, req);
    room := PerfectMatchesOverFrom(cands, req, k);
    PerfectMatchForShape(room, req);
    PerfectCandidatesMembers(rooms, stays, req);
  }

  lemma PerfectMatchForShape(room: Room, req: Request)
    requires PerfectMatchFor(room, req) != []
    ensures var s := PerfectMatchFor(room, req)[0];
      s.kind == PerfectMatch && s.segments == WholeStay(room, req) && s.confidence == 0.95
      && s.price == BasePrice(room.tier) * (Nights(req) as real) && WithinBudget(s.price, req)
      && s.priority == (if StrTruthy(req.preferredTier) || room.tier == "King" then Excellent else Good)
  {
  }

  /** The solution that offers `room` for the whole request. */
  function WholeStay(room: Room, req: Request): seq<Segment> {
    [Segment(room.id, room.tier, req.checkIn, req.checkOut, Nights(req))]
  }

  lemma {:induction false} PerfectMatchesOverHas(cands: seq<Room>, req: Request, room: Room)
    requires room in cands && WithinBudget(RoomPrice(room.tier, req.checkIn, req.checkOut), req)
    ensures exists s :: s in PerfectMatchesOver(cands, req) && s.segments == WholeStay(room, req)
  {
    var p := cands[..|cands| - 1];
    assert cands == p + [cands[|cands| - 1]];
    if room in p {
      PerfectMatchesOverHas(p, req, room);
    } else {
      assert PerfectMatchFor(room, req)[0] in PerfectMatchesOver(cands, req);
    }
  }

  /** Conversely, every free room of the right tier within budget is offered. */
  lemma PerfectMatchComplete(rooms: seq<Room>, stays: seq<Stay>, req: Request, room: Room)
    requires room in rooms && room.id !in OccupiedRooms(stays, req.checkIn, req.checkOut, None)
    requires StrTruthy(req.preferredTier) ==> room.tier == req.preferredTier.value
    requires WithinBudget(RoomPrice(room.tier, req.checkIn, req.checkOut), req)
    ensures exists s :: s in PerfectMatches(rooms, stays, req) && s.segments == WholeStay(room, req)
  {
    PerfectCandidatesMembers(rooms, stays, req);
    PerfectMatchesOverHas(PerfectCandidates(rooms, stays, req), req, room);
  }

  // -------------------------------------------------------------- split stay

  /** The body of the innermost split loop: room1 for [in, mid), room2 for [mid, out). */
  function SplitFor(room1: Room, room2: Room, req: Request, d: int): seq<Solution> {
    if room1.id == room2.id then []
    else
      var mid := req.checkIn + d;
      var price := RoomPrice(room1.tier, req.checkIn, mid) + RoomPrice(room2.tier, mid, req.checkOut);
      if !WithinBudget(price, req) then []
      else
        var hasUpgrade := room1.tier == "King" || room2.tier == "King";
        var benefit := if hasUpgrade && (!StrTruthy(req.preferredTier) || req.preferredTier.value == "Queen")
                       then Some("Incluye experiencia King") else None;
        [Solution(SplitStay, if hasUpgrade then Good else Acceptable,
                  [Segment(room1.id, room1.tier, req.checkIn, mid, d),
                   Segment(room2.id, room2.tier, mid, req.checkOut, Nights(req) - d)],
                  price, benefit, 0.8, None, None, false)]
  }

  /** `for room2 in available_2[:3]` for a fixed room1. */
  function SplitsWith(room1: Room, seconds: seq<Room>, req: Request, d: int): seq<Solution>
  {
    if seconds == [] then []
    else SplitsWith(room1, seconds[..|seconds| - 1], req, d) + SplitFor(room1, seconds[|seconds| - 1], req, d)
  }

  /** `for room1 in available_1[:3]: for room2 in available_2[:3]`. */
  function SplitsAcross(firsts: seq<Room>, seconds: seq<Room>, req: Request, d: int): seq<Solution>
  {
    if firsts == [] then []
    else SplitsAcross(firsts[..|firsts| - 1], seconds, req, d) + SplitsWith(firsts[|firsts| - 1], seconds, req, d)
  }

  /** At most three rooms free for [in, in + d). */
  function FirstHalfRooms(rooms: seq<Room>, stays: seq<Stay>, req: Request, d: int): seq<Room> {
    Sorting.Take(FreeRoomsOfTier(rooms, OccupiedRooms(stays, req.checkIn, req.checkIn + d, None), None), 3)
  }

  /** At most three rooms free for [in + d, out). */
  function SecondHalfRooms(rooms: seq<Room>, stays: seq<Stay>, req: Request, d: int): seq<Room> {
    Sorting.Take(FreeRoomsOfTier(rooms, OccupiedRooms(stays, req.checkIn + d, req.checkOut, None), None), 3)
  }

  /** Split solutions for split days 1 .. d - 1. */
  function SplitsBefore(rooms: seq<Room>, stays: seq<Stay>, req: Request, d: int): seq<Solution>
    decreases d
  {
    if d <= 1 then []
    else SplitsBefore(rooms, stays, req, d - 1)
         + SplitsAcross(FirstHalfRooms(rooms, stays, req, d - 1), SecondHalfRooms(rooms, stays, req, d - 1), req, d - 1)
  }

  function SplitStays(rooms: seq<Room>, stays: seq<Stay>, req: Request): seq<Solution> {
    if Nights(req) < 3 then [] else SplitsBefore(rooms, stays, req, Nights(req))
  }

  /** `_find_split_stay_solutions`. */
  method FindSplitStays(rooms: seq<Room>, stays: seq<Stay>, req: Request) returns (sols: seq<Solution>)
    ensures sols == SplitStays(rooms, stays, req)
  {
    sols := [];
    var duration := Nights(req);
    if duration < 3 {
      return;
    }
    for d := 1 to duration
      invariant sols == SplitsBefore(rooms, stays, req, d)
    {
      assert SplitsBefore(rooms, stays, req, d + 1) == SplitsBefore(rooms, stays, req, d)
        + SplitsAcross(FirstHalfRooms(rooms, stays, req, d), SecondHalfRooms(rooms, stays, req, d), req, d);
      var day := CombineHalves(FirstHalfRooms(rooms, stays, req, d), SecondHalfRooms(rooms, stays, req, d), req, d);
      sols := sols + day;
    }
  }

  /** The two nested room loops of one split day. */
  method CombineHalves(firsts: seq<Room>, seconds: seq<Room>, req: Request, d: int) returns (sols: seq<Solution>)
    ensures sols == SplitsAcross(firsts, seconds, req, d)
  {
    sols := [];
    var i := 0;
    while i < |firsts|
      invariant 0 <= i <= |firsts|
      invariant sols == SplitsAcross(firsts[..i], seconds, req, d)
    {
      assert firsts[..i + 1][..i] == firsts[..i];
      assert SplitsAcross(firsts[..i + 1], seconds, req, d)
        == SplitsAcross(firsts[..i], seconds, req, d) + SplitsWith(firsts[i], seconds, req, d);
      var row := SplitRow(firsts[i], seconds, req, d);
      sols := sols + row;
      i := i + 1;
    }
    assert firsts[..|firsts|] == firsts;
  }

  /** The inner room loop of a split day, for a fixed first-half room. */
  method SplitRow(room1: Room, seconds: seq<Room>, req: Request, d: int) returns (row: seq<Solution>)
    ensures row == SplitsWith(room1, seconds, req, d)
  {
    row := [];
    var j := 0;
    while j < |seconds|
      invariant 0 <= j <= |seconds|
      invariant row == SplitsWith(room1, seconds[..j], req, d)
    {
      assert seconds[..j + 1][..j] == seconds[..j];
      assert SplitsWith(room1, seconds[..j + 1], req, d)
        == SplitsWith(room1, seconds[..j], req, d) + SplitFor(room1, seconds[j], req, d);
      var found := SplitCandidate(room1, seconds[j], req, d);
      row := row + found;
      j := j + 1;
    }
    assert seconds[..|seconds|] == seconds;
  }

  /** One (room1, room2) pair of a split day: skipped when the rooms are the
      same or the total is over budget. */
  method SplitCandidate(room1: Room, room2: Room, req: Request, d: int) returns (found: seq<Solution>)
    ensures found == SplitFor(room1, room2, req, d)
  {
    found := [];
    var mid := req.checkIn + d;
    if room1.id == room2.id {
      assert SplitFor(room1, room2, req, d) == [];
      return;
    }
    var price1 := RoomPrice(room1.tier, req.checkIn, mid);
    var price2 := RoomPrice(room2.tier, mid, req.checkOut);
    var total := price1 + price2;
    if RealTruthy(req.maxBudget) && total > req.maxBudget.value {
      assert SplitFor(room1, room2, req, d) == [];
      return;
    }
    var hasUpgrade := room1.tier == "King" || room2.tier == "King";
    var benefit: Option<string> := None;
    if hasUpgrade && (!StrTruthy(req.preferredTier) || req.preferredTier.value == "Queen") {
      benefit := Some("Incluye experiencia King");
    }
    var solution := Solution(SplitStay, if hasUpgrade then Good else Acceptable,
                             [Segment(room1.id, room1.tier, req.checkIn, mid, d),
                              Segment(room2.id, room2.tier, mid, req.checkOut, Nights(req) - d)],
                             total, benefit, 0.8, None, None, false);
    assert SplitFor(room1, room2, req, d) == [solution];
    found := [solution];
  }

  lemma {:induction false} SplitsWithFrom(room1: Room, seconds: seq<Room>, req: Request, d: int, k: nat)
    returns (room2: Room)
    requires k < |SplitsWith(room1, seconds, req, d)|
    ensures room2 in seconds && SplitFor(room1, room2, req, d) == [SplitsWith(room1, seconds, req, d)[k]]
  {
    var p := seconds[..|seconds| - 1];
    SplitsWithIndex(room1, seconds, req, d, k);
    if k < |SplitsWith(room1, p, req, d)| {
      room2 := SplitsWithFrom(room1, p, req, d, k);
      assert room2 in seconds by { assert seconds == p + [seconds[|seconds| - 1]]; }
    } else {
      room2 := seconds[|seconds| - 1];
    }
  }

  lemma SplitsWithIndex(room1: Room, seconds: seq<Room>, req: Request, d: int, k: nat)
    requires k < |SplitsWith(room1, seconds, req, d)|
    ensures seconds != []
    ensures var p := seconds[..|seconds| - 1]; var n := |SplitsWith(room1, p, req, d)|;
      if k < n then SplitsWith(room1, seconds, req, d)[k] == SplitsWith(room1, p, req, d)[k]
      else SplitFor(room1, seconds[|seconds| - 1], req, d) == [SplitsWith(room1, seconds, req, d)[k]]
  {
  }

  lemma {:induction false} SplitsAcrossFrom(firsts: seq<Room>, seconds: seq<Room>, req: Request, d: int, k: nat)
    returns (room1: Room, room2: Room)
    requires k < |SplitsAcross(firsts, seconds, req, d)|
    ensures room1 in firsts && room2 in seconds
    ensures SplitFor(room1, room2, req, d) == [SplitsAcross(firsts, seconds, req, d)[k]]
  {
    var p := firsts[..|firsts| - 1];
    var n := |SplitsAcross(p, seconds, req, d)|;
    SplitsAcrossIndex(firsts, seconds, req, d, k);
    if k < n {
      room1, room2 := SplitsAcrossFrom(p, seconds, req, d, k);
      assert room1 in firsts by { assert firsts == p + [firsts[|firsts| - 1]]; }
    } else {
      room1 := firsts[|firsts| - 1];
      room2 := SplitsWithFrom(room1, seconds, req, d, k - n);
    }
  }

  lemma SplitsAcrossIndex(firsts: seq<Room>, seconds: seq<Room>, req: Request, d: int, k: nat)
    requires k < |SplitsAcross(firsts, seconds, req, d)|
    ensures firsts != []
    ensures var p := firsts[..|firsts| - 1]; var n := |SplitsAcross(p, seconds, req, d)|;
      if k < n then SplitsAcross(firsts, seconds, req, d)[k] == SplitsAcross(p, seconds, req, d)[k]
      else k - n < |SplitsWith(firsts[|firsts| - 1], seconds, req, d)| &&
           SplitsAcross(firsts, seconds, req, d)[k] == SplitsWith(firsts[|firsts| - 1], seconds, req, d)[k - n]
  {
  }

  lemma {:induction false} SplitsBeforeFrom(rooms: seq<Room>, stays: seq<Stay>, req: Request, e: int, k: nat)
    returns (d: int, room1: Room, room2: Room)
    requires k < |SplitsBefore(rooms, stays, req, e)|
    ensures 1 <= d < e
    ensures room1 in FirstHalfRooms(rooms, stays, req, d) && room2 in SecondHalfRooms(rooms, stays, req, d)
    ensures SplitFor(room1, room2, req, d) == [SplitsBefore(rooms, stays, req, e)[k]]
    decreases e
  {
    if k < |SplitsBefore(rooms, stays, req, e - 1)| {
      d, room1, room2 := SplitsBeforeFrom(rooms, stays, req, e - 1, k);
      SplitsBeforeEarlier(rooms, stays, req, e, k);
    } else {
      d := e - 1;
      room1, room2 := SplitsBeforeLast(rooms, stays, req, e, k);
    }
  }

  lemma SplitsBeforeEarlier(rooms: seq<Room>, stays: seq<Stay>, req: Request, e: int, k: nat)
    requires e > 1 && k < |SplitsBefore(rooms, stays, req, e - 1)|
    ensures k < |SplitsBefore(rooms, stays, req, e)|
    ensures SplitsBefore(rooms, stays, req, e)[k] == SplitsBefore(rooms, stays, req, e - 1)[k]
  {
  }

  /** A solution past the earlier split days comes from the last one. */
  lemma SplitsBeforeLast(rooms: seq<Room>, stays: seq<Stay>, req: Request, e: int, k: nat)
    returns (room1: Room, room2: Room)
    requires e > 1 && |SplitsBefore(rooms, stays, req, e - 1)| <= k < |SplitsBefore(rooms, stays, req, e)|
    ensures room1 in FirstHalfRooms(rooms, stays, req, e - 1) && room2 in SecondHalfRooms(rooms, stays, req, e - 1)
    ensures SplitFor(room1, room2, req, e - 1) == [SplitsBefore(rooms, stays, req, e)[k]]
  {
    var n := |SplitsBefore(rooms, stays, req, e - 1)|;
    SplitsBeforeLastIndex(rooms, stays, req, e, k);
    room1, room2 := SplitsAcrossFrom(FirstHalfRooms(rooms, stays, req, e - 1), SecondHalfRooms(rooms, stays, req, e - 1), req, e - 1, k - n);
  }

  lemma SplitsBeforeLastIndex(rooms: seq<Room>, stays: seq<Stay>, req: Request, e: int, k: nat)
    requires e > 1 && |SplitsBefore(rooms, stays, req, e - 1)| <= k < |SplitsBefore(rooms, stays, req, e)|
    ensures var n := |SplitsBefore(rooms, stays, req, e - 1)|;
      var across := SplitsAcross(FirstHalfRooms(rooms, stays, req, e - 1), SecondHalfRooms(rooms, stays, req, e - 1), req, e - 1);
      k - n < |across| && SplitsBefore(rooms, stays, req, e)[k] == across[k - n]
  {
  }

  /** The solution a kept (room1, room2) pair produces. */
  lemma SplitForShape(room1: Room, room2: Room, req: Request, d: int)
    requires SplitFor(room1, room2, req, d) != []
    ensures room1.id != room2.id
    ensures var s := SplitFor(room1, room2, req, d)[0];
      var mid := req.checkIn + d;
      s.kind == SplitStay && s.confidence == 0.8
      && s.segments == [Segment(room1.id, room1.tier, req.checkIn, mid, d),
                        Segment(room2.id, room2.tier, mid, req.checkOut, Nights(req) - d)]
      && s.price == RoomPrice(room1.tier, req.checkIn, mid) + RoomPrice(room2.tier, mid, req.checkOut)
      && WithinBudget(s.price, req)
      && s.priority == (if room1.tier == "King" || room2.tier == "King" then Good else Acceptable)
  {
  }

  /** Every split solution uses a split day in [1, nights - 1] and two distinct
      rooms, each free for its half; the halves meet at the split day and
      their nights add up to the request's; the price is the sum of the two
      halves' base × nights; priority is GOOD exactly when a King room is
      involved, ACCEPTABLE otherwise; confidence is 0.8. */
  lemma SplitStaySound(rooms: seq<Room>, stays: seq<Stay>, req: Request, k: nat)
    returns (d: int, room1: Room, room2: Room)
    requires k < |SplitStays(rooms, stays, req)|
    ensures Nights(req) >= 3 && 1 <= d <= Nights(req) - 1
    ensures room1 in rooms && room1.id !in OccupiedRooms(stays, req.checkIn, req.checkIn + d, None)
    ensures room2 in rooms && room2.id !in OccupiedRooms(stays, req.checkIn + d, req.checkOut, None)
    ensures room1.id != room2.id
    ensures var s := SplitStays(rooms, stays, req)[k];
      var mid := req.checkIn + d;
      s.kind == SplitStay && s.confidence == 0.8
      && s.segments == [Segment(room1.id, room1.tier, req.checkIn, mid, d),
                        Segment(room2.id, room2.tier, mid, req.checkOut, Nights(req) - d)]
      && s.segments[0].nights + s.segments[1].nights == Nights(req)
      && s.price == RoomPrice(room1.tier, req.checkIn, mid) + RoomPrice(room2.tier, mid, req.checkOut)
      && WithinBudget(s.price, req)
      && s.priority == (if room1.tier == "King" || room2.tier == "King" then Good else Acceptable)
  {
    d, room1, room2 := SplitsBeforeFrom(rooms, stays, req, Nights(req), k);
    SplitForShape(room1, room2, req, d);
    SplitRoomsFree(rooms, stays, req, d, room1, room2);
  }

  /** The rooms of a split are free for their halves. */
  lemma SplitRoomsFree(rooms: seq<Room>, stays: seq<Stay>, req: Request, d: int, room1: Room, room2: Room)
    requires room1 in FirstHalfRooms(rooms, stays, req, d) && room2 in SecondHalfRooms(rooms, stays, req, d)
    ensures room1 in rooms && room1.id !in OccupiedRooms(stays, req.checkIn, req.checkIn + d, None)
    ensures room2 in rooms && room2.id !in OccupiedRooms(stays, req.checkIn + d, req.checkOut, None)
  {
    var free1 := FreeRoomsOfTier(rooms, OccupiedRooms(stays, req.checkIn, req.checkIn + d, None), None);
    var free2 := FreeRoomsOfTier(rooms, OccupiedRooms(stays, req.checkIn + d, req.checkOut, None), None);
    Sorting.TakePrefix(free1, 3);
    Sorting.TakePrefix(free2, 3);
    FreeRoomsOfTierMembers(rooms, OccupiedRooms(stays, req.checkIn, req.checkIn + d, None), None);
    FreeRoomsOfTierMembers(rooms, OccupiedRooms(stays, req.checkIn + d, req.checkOut, None), None);
    assert room1 in free1 && room2 in free2;
  }

  lemma {:induction false} SplitsWithBound(room1: Room, seconds: seq<Room>, req: Request, d: int)
    ensures |SplitsWith(room1, seconds, req, d)| <= |seconds|
  {
    if seconds != [] {
      SplitsWithBound(room1, seconds[..|seconds| - 1], req, d);
    }
  }

  lemma {:induction false} SplitsAcrossBound(firsts: seq<Room>, seconds: seq<Room>, req: Request, d: int)
    requires |seconds| <= 3
    ensures |SplitsAcross(firsts, seconds, req, d)| <= 3 * |firsts|
  {
    if firsts != [] {
      SplitsAcrossBound(firsts[..|firsts| - 1], seconds, req, d);
      SplitsWithBound(firsts[|firsts| - 1], seconds, req, d);
    }
  }

  /** At most three candidates per half: no more than nine splits per split day. */
  lemma SplitDayBound(rooms: seq<Room>, stays: seq<Stay>, req: Request, d: int)
    ensures |SplitsAcross(FirstHalfRooms(rooms, stays, req, d), SecondHalfRooms(rooms, stays, req, d), req, d)| <= 9
  {
    SplitsAcrossBound(FirstHalfRooms(rooms, stays, req, d), SecondHalfRooms(rooms, stays, req, d), req, d);
  }

  // ------------------------------------------------------------ reallocation

  /** The candidate stays: Activa, starting by the request's check-out and
      with a check-out on or after the request's check-in (NULL never is). */
  predicate Movable(st: Stay, req: Request) {
    st.status == Active && st.checkIn <= req.checkOut
    && st.checkOut.Some? && st.checkOut.value >= req.checkIn
  }

  /** The mover's part of the request: [max(check-ins), min(check-outs)). */
  function GuestCheckIn(st: Stay, req: Request): int {
    if st.checkIn >= req.checkIn then st.checkIn else req.checkIn
  }

  function GuestCheckOut(st: Stay, req: Request): int {
    var out := if st.checkOut.Some? then st.checkOut.value else req.checkOut;
    if out <= req.checkOut then out else req.checkOut
  }

  /** King rooms free for the mover's clipped interval, ignoring the mover's own stay. */
  function FreeKings(rooms: seq<Room>, stays: seq<Stay>, st: Stay, req: Request): seq<Room> {
    FreeRoomsOfTier(rooms, OccupiedRooms(stays, GuestCheckIn(st, req), GuestCheckOut(st, req), Some(st.id)), Some("King"))
  }

  lemma FreeKingsMembers(rooms: seq<Room>, stays: seq<Stay>, st: Stay, req: Request)
    ensures forall x :: x in FreeKings(rooms, stays, st, req) <==> (x in rooms && x.tier == "King"
      && x.id !in OccupiedRooms(stays, GuestCheckIn(st, req), GuestCheckOut(st, req), Some(st.id)))
  {
    assert StrTruthy(Some("King"));
    FreeRoomsOfTierMembers(rooms, OccupiedRooms(stays, GuestCheckIn(st, req), GuestCheckOut(st, req), Some(st.id)),
                           Some("King"));
  }

  /** The body of the King loop: propose freeing `queen` by moving `st` to `king`. */
  function ProposalFor(queen: Room, king: Room, st: Stay, stays: seq<Stay>, req: Request): seq<Solution> {
    if queen.id in OccupiedRooms(stays, req.checkIn, req.checkOut, Some(st.id)) then []
    else
      var price := RoomPrice(queen.tier, req.checkIn, req.checkOut);
      if !WithinBudget(price, req) then []
      else [Solution(UpgradeReallocation, Good, WholeStay(queen, req), price,
                     Some("Cliente actual recibe upgrade gratis"), 0.75, Some(st.id), Some(king.id), true)]
  }

  function ProposalsOver(kings: seq<Room>, queen: Room, st: Stay, stays: seq<Stay>, req: Request): seq<Solution>
  {
    if kings == [] then []
    else ProposalsOver(kings[..|kings| - 1], queen, st, stays, req) + ProposalFor(queen, kings[|kings| - 1], st, stays, req)
  }

  /** Proposals for one candidate stay: none unless it sits in a Queen room. */
  function ReallocationsFor(rooms: seq<Room>, stays: seq<Stay>, st: Stay, req: Request): seq<Solution>
  {
    var room := RoomById(rooms, st.roomId);
    if room.None? || room.value.tier != "Queen" then []
    else ProposalsOver(FreeKings(rooms, stays, st, req), room.value, st, stays, req)
  }

  function ReallocationsOver(rooms: seq<Room>, stays: seq<Stay>, movers: seq<Stay>, req: Request): seq<Solution>
  {
    if movers == [] then []
    else ReallocationsOver(rooms, stays, movers[..|movers| - 1], req) + ReallocationsFor(rooms, stays, movers[|movers| - 1], req)
  }

  /** The `current_stays` query: the movable stays, in query order. */
  function Movers(stays: seq<Stay>, req: Request): seq<Stay> {
    if stays == [] then []
    else Movers(stays[..|stays| - 1], req) + (if Movable(stays[|stays| - 1], req) then [stays[|stays| - 1]] else [])
  }

  lemma {:induction false} MoversMembers(stays: seq<Stay>, req: Request)
    ensures forall st :: st in Movers(stays, req) <==> st in stays && Movable(st, req)
  {
    if stays != [] {
      MoversMembers(stays[..|stays| - 1], req);
      assert stays == stays[..|stays| - 1] + [stays[|stays| - 1]];
    }
  }

  function Reallocations(rooms: seq<Room>, stays: seq<Stay>, req: Request): seq<Solution> {
    ReallocationsOver(rooms, stays, Movers(stays, req), req)
  }

  /** `_find_reallocation_solutions`. */
  method FindReallocations(rooms: seq<Room>, stays: seq<Stay>, req: Request) returns (sols: seq<Solution>)
    ensures sols == Reallocations(rooms, stays, req)
  {
    var movers := Movers(stays, req);
    sols := [];
    for i := 0 to |movers|
      invariant sols == ReallocationsOver(rooms, stays, movers[..i], req)
    {
      sols := ReallocateMover(rooms, stays, movers, req, i, sols);
    }
    assert movers[..|movers|] == movers;
  }

  /** The loop body for the i-th current stay: only a stay in a Queen room is
      considered, and its proposals are appended. */
  method ReallocateMover(rooms: seq<Room>, stays: seq<Stay>, movers: seq<Stay>, req: Request, i: nat,
                         sols: seq<Solution>)
    returns (next: seq<Solution>)
    requires i < |movers| && sols == ReallocationsOver(rooms, stays, movers[..i], req)
    ensures next == ReallocationsOver(rooms, stays, movers[..i + 1], req)
  {
    assert movers[..i + 1][..i] == movers[..i];
    var st := movers[i];
    var room := RoomById(rooms, st.roomId);
    if room.None? || room.value.tier != "Queen" {
      return sols;
    }
    var found := ProposeMoves(FreeKings(rooms, stays, st, req), room.value, st, stays, req);
    next := sols + found;
  }

  /** The King loop for one mover. */
  method ProposeMoves(kings: seq<Room>, queen: Room, st: Stay, stays: seq<Stay>, req: Request)
    returns (sols: seq<Solution>)
    ensures sols == ProposalsOver(kings, queen, st, stays, req)
  {
    sols := [];
    var j := 0;
    while j < |kings|
      invariant 0 <= j <= |kings|
      invariant sols == ProposalsOver(kings[..j], queen, st, stays, req)
    {
      assert kings[..j + 1][..j] == kings[..j];
      var occupiedWithoutStay := OccupiedRooms(stays, req.checkIn, req.checkOut, Some(st.id));
      if queen.id !in occupiedWithoutStay {
        var price := RoomPrice(queen.tier, req.checkIn, req.checkOut);
        if !(RealTruthy(req.maxBudget) && price > req.maxBudget.value) {
          sols := sols + [Solution(UpgradeReallocation, Good, WholeStay(queen, req), price,
                                   Some("Cliente actual recibe upgrade gratis"), 0.75,
                                   Some(st.id), Some(kings[j].id), true)];
        }
      }
      j := j + 1;
    }
    assert kings[..|kings|] == kings;
  }

  lemma {:induction false} ProposalsOverFrom(kings: seq<Room>, queen: Room, st: Stay, stays: seq<Stay>, req: Request, k: nat)
    returns (king: Room)
    requires k < |ProposalsOver(kings, queen, st, stays, req)|
    ensures king in kings && ProposalFor(queen, king, st, stays, req) == [ProposalsOver(kings, queen, st, stays, req)[k]]
  {
    var p := kings[..|kings| - 1];
    if k < |ProposalsOver(p, queen, st, stays, req)| {
      king := ProposalsOverFrom(p, queen, st, stays, req, k);
    } else {
      king := kings[|kings| - 1];
    }
  }

  lemma {:induction false} ReallocationsOverFrom(rooms: seq<Room>, stays: seq<Stay>, movers: seq<Stay>, req: Request, k: nat)
    returns (st: Stay, j: nat)
    requires k < |ReallocationsOver(rooms, stays, movers, req)|
    ensures st in movers && j < |ReallocationsFor(rooms, stays, st, req)|
    ensures ReallocationsFor(rooms, stays, st, req)[j] == ReallocationsOver(rooms, stays, movers, req)[k]
  {
    var p := movers[..|movers| - 1];
    var here := ReallocationsFor(rooms, stays, movers[|movers| - 1], req);
    var whole := ReallocationsOver(rooms, stays, movers, req);
    var left := ReallocationsOver(rooms, stays, p, req);
    assert whole == left + here;
    if k < |left| {
      st, j := ReallocationsOverFrom(rooms, stays, p, req, k);
      assert whole[k] == left[k];
    } else {
      st, j := movers[|movers| - 1], k - |left|;
      assert whole[k] == here[j];
    }
  }

  /** A proposal for one stay comes from its Queen room and one of the free King rooms. */
  lemma ReallocationsForFrom(rooms: seq<Room>, stays: seq<Stay>, st: Stay, req: Request, j: nat)
    returns (queen: Room, king: Room)
    requires j < |ReallocationsFor(rooms, stays, st, req)|
    ensures RoomById(rooms, st.roomId) == Some(queen) && queen.tier == "Queen"
    ensures king in FreeKings(rooms, stays, st, req)
    ensures ProposalFor(queen, king, st, stays, req) == [ReallocationsFor(rooms, stays, st, req)[j]]
  {
    queen := RoomById(rooms, st.roomId).value;
    king := ProposalsOverFrom(FreeKings(rooms, stays, st, req), queen, st, stays, req, j);
  }

  /** Every reallocation moves an Activa stay out of a Queen room into a King
      room that is free for the guest's clipped interval (the guest's own stay
      ignored); the Queen room is free for the whole request once that stay is
      ignored; the proposal is GOOD, confidence 0.75, priced as the Queen
      room, within budget, and needs the guest's approval. */
  lemma ReallocationSound(rooms: seq<Room>, stays: seq<Stay>, req: Request, k: nat)
    returns (st: Stay, queen: Room, king: Room)
    requires k < |Reallocations(rooms, stays, req)|
    ensures st in stays && st.status == Active && st.checkIn <= req.checkOut
    ensures st.checkOut.Some? && st.checkOut.value >= req.checkIn
    ensures RoomById(rooms, st.roomId) == Some(queen) && queen.tier == "Queen"
    ensures king in rooms && king.tier == "King"
    ensures king.id !in OccupiedRooms(stays, GuestCheckIn(st, req), GuestCheckOut(st, req), Some(st.id))
    ensures queen.id !in OccupiedRooms(stays, req.checkIn, req.checkOut, Some(st.id))
    ensures var s := Reallocations(rooms, stays, req)[k];
      s == Solution(UpgradeReallocation, Good, WholeStay(queen, req), RoomPrice(queen.tier, req.checkIn, req.checkOut),
                    Some("Cliente actual recibe upgrade gratis"), 0.75, Some(st.id), Some(king.id), true)
      && s.requiresGuestApproval && WithinBudget(s.price, req)
  {
    var j;
    st, j := ReallocationsOverFrom(rooms, stays, Movers(stays, req), req, k);
    queen, king := ReallocationsForFrom(rooms, stays, st, req, j);
    MoversMembers(stays, req);
    FreeKingsMembers(rooms, stays, st, req);
  }

  // ----------------------------------------------------------------- ranking

  /** `priority_weights`. */
  function Weight(p: Priority): int {
    match p
    case Excellent => 4
    case Good => 3
    case Acceptable => 2
    case LastResort => 1
  }

  /** `solution_score`: 2 × weight + confidence, plus 0.1 for an upgrade benefit. */
  function Score(s: Solution): real {
    2.0 * (Weight(s.priority) as real) + s.confidence + (if StrTruthy(s.upgradeBenefit) then 0.1 else 0.0)
  }

  /** The order `sorted(..., key=solution_score, reverse=True)` imposes. */
  predicate ScoreAhead(a: Solution, b: Solution) {
    Score(a) > Score(b)
  }

  lemma ScoreAheadIsStrictWeakOrder()
    ensures Sorting.StrictWeakOrder(ScoreAhead)
  {
  }

  /** `_rank_solutions`. */
  function Rank(sols: seq<Solution>): seq<Solution> {
    Sorting.Sort(sols, ScoreAhead)
  }

  /** With confidences in [0, 0.95], a higher priority always scores higher,
      whatever the confidences and upgrade bonuses. */
  lemma PriorityDominates(a: Solution, b: Solution)
    requires 0.0 <= a.confidence <= 0.95 && 0.0 <= b.confidence <= 0.95
    requires Weight(a.priority) > Weight(b.priority)
    ensures Score(a) > Score(b)
  {
  }

  // --------------------------------------------------------------- top level

  /** Perfect matches, then split stays only when there were none, then reallocations. */
  function Candidates(rooms: seq<Room>, stays: seq<Stay>, req: Request): seq<Solution> {
    var perfect := PerfectMatches(rooms, stays, req);
    perfect + (if perfect == [] then SplitStays(rooms, stays, req) else []) + Reallocations(rooms, stays, req)
  }

  function BookingSolutions(rooms: seq<Room>, stays: seq<Stay>, req: Request): seq<Solution> {
    Sorting.Take(Rank(Candidates(rooms, stays, req)), 8)
  }

  /** `find_booking_solutions`. */
  method FindBookingSolutions(rooms: seq<Room>, stays: seq<Stay>, req: Request) returns (sols: seq<Solution>)
    ensures sols == BookingSolutions(rooms, stays, req)
  {
    var perfect := FindPerfectMatches(rooms, stays, req);
    var all := perfect;
    if perfect == [] {
      var split := FindSplitStays(rooms, stays, req);
      all := all + split;
    }
    var moves := FindReallocations(rooms, stays, req);
    all := all + moves;
    assert all == Candidates(rooms, stays, req);
    sols := Sorting.Take(Rank(all), 8);
  }

  lemma PerfectKind(rooms: seq<Room>, stays: seq<Stay>, req: Request, x: Solution)
    requires x in PerfectMatches(rooms, stays, req)
    ensures x.kind == PerfectMatch && x.confidence == 0.95
  {
    var perfect := PerfectMatches(rooms, stays, req);
    var k :| 0 <= k < |perfect| && perfect[k] == x;
    var _ := PerfectMatchSound(rooms, stays, req, k);
  }

  lemma SplitKind(rooms: seq<Room>, stays: seq<Stay>, req: Request, x: Solution)
    requires x in SplitStays(rooms, stays, req)
    ensures x.kind == SplitStay && x.confidence == 0.8
  {
    var split := SplitStays(rooms, stays, req);
    var k :| 0 <= k < |split| && split[k] == x;
    var _, _, _ := SplitStaySound(rooms, stays, req, k);
  }

  lemma ReallocationKind(rooms: seq<Room>, stays: seq<Stay>, req: Request, x: Solution)
    requires x in Reallocations(rooms, stays, req)
    ensures x.kind == UpgradeReallocation && x.confidence == 0.75
  {
    var moves := Reallocations(rooms, stays, req);
    var k :| 0 <= k < |moves| && moves[k] == x;
    var _, _, _ := ReallocationSound(rooms, stays, req, k);
  }

  /** Every candidate has confidence 0.75, 0.8 or 0.95. */
  lemma CandidateConfidence(rooms: seq<Room>, stays: seq<Stay>, req: Request, x: Solution)
    requires x in Candidates(rooms, stays, req)
    ensures 0.75 <= x.confidence <= 0.95
  {
    var perfect := PerfectMatches(rooms, stays, req);
    var split := if perfect == [] then SplitStays(rooms, stays, req) else [];
    if x in perfect {
      PerfectKind(rooms, stays, req, x);
    } else if x in split {
      SplitKind(rooms, stays, req, x);
    } else {
      ReallocationKind(rooms, stays, req, x);
    }
  }

  /** The result holds at most eight candidates, ordered by non-increasing
      score and hence by non-increasing priority. */
  lemma BookingSolutionsRanked(rooms: seq<Room>, stays: seq<Stay>, req: Request)
    ensures var r := BookingSolutions(rooms, stays, req);
      |r| <= 8
      && multiset(r) <= multiset(Candidates(rooms, stays, req))
      && (forall i, j :: 0 <= i < j < |r| ==> Score(r[i]) >= Score(r[j]))
      && (forall i, j :: 0 <= i < j < |r| ==> Weight(r[i].priority) >= Weight(r[j].priority))
  {
    var c := Candidates(rooms, stays, req);
    var r := BookingSolutions(rooms, stays, req);
    ScoreAheadIsStrictWeakOrder();
    Sorting.SortedPrefix(c, ScoreAhead, 8);
    forall i, j | 0 <= i < j < |r|
      ensures Score(r[i]) >= Score(r[j]) && Weight(r[i].priority) >= Weight(r[j].priority)
    {
      assert !ScoreAhead(r[j], r[i]);
      assert r[i] in multiset(c) && r[j] in multiset(c);
      CandidateConfidence(rooms, stays, req, r[i]);
      CandidateConfidence(rooms, stays, req, r[j]);
      if Weight(r[j].priority) > Weight(r[i].priority) {
        PriorityDominates(r[j], r[i]);
      }
    }
  }

  /** The solutions keep eight candidates, or all of them when there are
      fewer, and a candidate cut by the cap never scores above one kept. */
  lemma BookingSolutionsKeepTheTop(rooms: seq<Room>, stays: seq<Stay>, req: Request)
    ensures var ranked := Rank(Candidates(rooms, stays, req));
      var r := BookingSolutions(rooms, stays, req);
      |r| == (if |ranked| < 8 then |ranked| else 8)
      && forall i, j :: 0 <= i < |r| <= j < |ranked| ==> Score(ranked[j]) <= Score(r[i])
  {
    var c := Candidates(rooms, stays, req);
    var ranked := Rank(c);
    var r := BookingSolutions(rooms, stays, req);
    ScoreAheadIsStrictWeakOrder();
    Sorting.SortRanked(c, ScoreAhead);
    Sorting.TakePrefix(ranked, 8);
    forall i, j | 0 <= i < |r| <= j < |ranked| ensures Score(ranked[j]) <= Score(r[i]) {
      assert r[i] == ranked[i];
      assert !ScoreAhead(ranked[j], ranked[i]);
    }
  }

  lemma CandidateNotSplit(rooms: seq<Room>, stays: seq<Stay>, req: Request, x: Solution)
    requires x in Candidates(rooms, stays, req) && PerfectMatches(rooms, stays, req) != []
    ensures x.kind != SplitStay
  {
    if x in PerfectMatches(rooms, stays, req) {
      PerfectKind(rooms, stays, req, x);
    } else {
      ReallocationKind(rooms, stays, req, x);
    }
  }

  /** Split stays are offered only when no perfect match exists. */
  lemma NoSplitWhenPerfect(rooms: seq<Room>, stays: seq<Stay>, req: Request)
    requires PerfectMatches(rooms, stays, req) != []
    ensures forall s :: s in BookingSolutions(rooms, stays, req) ==> s.kind != SplitStay
  {
    var c := Candidates(rooms, stays, req);
    ScoreAheadIsStrictWeakOrder();
    Sorting.SortedPrefix(c, ScoreAhead, 8);
    forall s | s in BookingSolutions(rooms, stays, req) ensures s.kind != SplitStay {
      assert s in multiset(BookingSolutions(rooms, stays, req));
      assert s in multiset(c);
      CandidateNotSplit(rooms, stays, req, s);
    }
  }

  /** Solutions with equal scores keep the order in which they were found. */
  lemma RankStable(sols: seq<Solution>, e: Solution)
    ensures Sorting.TiedWith(Rank(sols), e, ScoreAhead) == Sorting.TiedWith(sols, e, ScoreAhead)
  {
    ScoreAheadIsStrictWeakOrder();
    Sorting.SortStable(sols, e, ScoreAhead);
  }
}
