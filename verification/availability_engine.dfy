/** The four-tier availability engine: given the stay ledger and a booking
    request it gathers suggestions (direct rooms, shifted dates, upgrades, a
    midpoint split, early check-in and late check-out, price notes), ranks
    them by 2 × priority weight + confidence and keeps the best ten.
    Dates are day numbers; `now` is the day the analysis runs. */
module AvailabilityEngine {
  import opened Common
  import opened Ledger
  import Calendar
  import Sorting

  datatype Level = Critical | High | Medium | Low | Info

  datatype SuggestionKind =
    | AvailableRoom | AlternativeDates | RoomUpgrade | EarlyCheckin
    | LateCheckout | SplitStay | WaitingList | PriceOptimization

  /** The numeric part of `additional_info`, per kind of suggestion. */
  datatype Details =
    | DirectInfo(tier: string, nights: int)
    | ShiftInfo(offset: int, tier: string, originalDates: (int, int))
    | UpgradeInfo(originalTier: string, upgradeTier: string, upgradeCost: real, levelsUp: int)
    | SplitInfo(room1: int, room2: int, splitDate: int, price1: real, price2: real)
    | ExtraNightInfo(extraCost: real, newDate: int)
    | SavingsInfo(historicalAverage: real, perNight: real, totalNights: int)

  /** `AvailabilitySuggestion` without its display strings; `upgradeValue`
      holds the number of tier levels gained. */
  datatype Suggestion = Suggestion(
    kind: SuggestionKind,
    priority: Level,
    roomId: Option<int>,
    alternativeDates: Option<(int, int)>,
    estimatedPrice: Option<real>,
    confidence: real,
    savings: Option<real>,
    upgradeValue: Option<int>,
    details: Details)

  /** `BookingRequest`; the guest count plays no part in any rule. */
  datatype Request = Request(
    checkIn: int,
    checkOut: int,
    preferredTier: Option<string>,
    maxBudget: Option<real>,
    clientId: Option<int>,
    flexibleDates: bool,
    flexibleDays: int)

  function Nights(req: Request): int {
    req.checkOut - req.checkIn
  }

  /** `max_budget and price > max_budget`. */
  predicate OverBudget(price: real, req: Request) {
    RealTruthy(req.maxBudget) && price > req.maxBudget.value
  }

  // --------------------------------------------------------------- occupancy

  /** A stay that is Activa or Pendiente de Cierre and overlaps [a, b). */
  predicate Holds(st: Stay, a: int, b: int) {
    HoldsRoom(st.status) && Overlaps(st, a, b)
  }

  /** `_get_occupied_rooms`: the room of every holding stay that overlaps
      [a, b), in query order; no stay is excluded and no room id is filtered out. */
  function OccupiedRooms(stays: seq<Stay>, a: int, b: int): seq<int> {
    if stays == [] then []
    else OccupiedRooms(stays[..|stays| - 1], a, b)
         + (if Holds(stays[|stays| - 1], a, b) then [stays[|stays| - 1].roomId] else [])
  }

  /** A room is occupied for [a, b) iff a holding stay in it overlaps [a, b). */
  lemma {:induction false} OccupiedRoomsMembers(stays: seq<Stay>, a: int, b: int)
    ensures forall x :: x in OccupiedRooms(stays, a, b) <==>
      exists i :: 0 <= i < |stays| && stays[i].roomId == x && Holds(stays[i], a, b)
  {
    if stays != [] {
      var p := stays[..|stays| - 1];
      var st := stays[|stays| - 1];
      OccupiedRoomsMembers(p, a, b);
      forall x | x in OccupiedRooms(stays, a, b)
        ensures exists i :: 0 <= i < |stays| && stays[i].roomId == x && Holds(stays[i], a, b)
      {
        if x in OccupiedRooms(p, a, b) {
          var i :| 0 <= i < |p| && p[i].roomId == x && Holds(p[i], a, b);
          assert stays[i] == p[i];
        } else {
          assert stays[|stays| - 1] == st;
        }
      }
      forall x | exists i :: 0 <= i < |stays| && stays[i].roomId == x && Holds(stays[i], a, b)
        ensures x in OccupiedRooms(stays, a, b)
      {
        var i :| 0 <= i < |stays| && stays[i].roomId == x && Holds(stays[i], a, b);
        if i < |p| {
          assert p[i] == stays[i];
        }
      }
    }
  }

  /** Free rooms for [a, b) (`Room.id NOT IN occupied`), then narrowed to the
      preferred tier when it is truthy. */
  function OpenRooms(rooms: seq<Room>, stays: seq<Stay>, a: int, b: int, tier: Option<string>): seq<Room> {
    FreeRoomsOfTier(rooms, OccupiedRooms(stays, a, b), tier)
  }

  lemma OpenRoomsMembers(rooms: seq<Room>, stays: seq<Stay>, a: int, b: int, tier: Option<string>)
    ensures forall r :: r in OpenRooms(rooms, stays, a, b, tier) <==>
      r in rooms && r.id !in OccupiedRooms(stays, a, b) && (StrTruthy(tier) ==> r.tier == tier.value)
  {
    FreeRoomsOfTierMembers(rooms, OccupiedRooms(stays, a, b), tier);
  }

  // ----------------------------------------------------------------- pricing

  /** `base_prices.get(tier, 3000)`. */
  function BaseRate(tier: string): real {
    match tier
    case "Económica" => 2000.0
    case "Estándar" => 3000.0
    case "Superior" => 4500.0
    case "Suite" => 6000.0
    case _ => 3000.0
  }

  /** The long-stay step as written: the 14-night test comes after the
      7-night one, so it is never reached. */
  function LongStayRate(rate: real, nights: int): real {
    if nights >= 7 then rate * 0.9
    else if nights >= 14 then rate * 0.85
    else rate
  }

  /** `check_in.month in [12, 1, 2, 7, 8]`. */
  predicate HighSeason(month: int) {
    month == 12 || month == 1 || month == 2 || month == 7 || month == 8
  }

  /** The seasonal step: 20% more for a stay starting in the high season. */
  function SeasonalRate(rate: real, start: int): real {
    if HighSeason(Calendar.MonthOf(start)) then rate * 1.2 else rate
  }

  /** `tier or room.tier`. */
  function TierToUse(roomTier: string, tier: Option<string>): string {
    if StrTruthy(tier) then tier.value else roomTier
  }

  /** The nightly rate after the long-stay and then the seasonal step. */
  function NightlyRate(roomTier: string, tier: Option<string>, start: int, end: int): real {
    SeasonalRate(LongStayRate(BaseRate(TierToUse(roomTier, tier)), end - start), start)
  }

  /** `_estimate_room_price`, with `start`/`end` the override dates when
      given and the request's dates otherwise: the adjusted nightly rate
      times the nights. */
  function EstimatedPrice(roomTier: string, tier: Option<string>, start: int, end: int): real {
    NightlyRate(roomTier, tier, start, end) * ((end - start) as real)
  }

  /** Every stay of seven nights or more, fourteen and beyond included, gets
      exactly 10% off the base rate, and a shorter stay none. */
  lemma LongStayDiscount(roomTier: string, tier: Option<string>, start: int, end: int)
    ensures end - start >= 7 ==>
      NightlyRate(roomTier, tier, start, end) == SeasonalRate(BaseRate(TierToUse(roomTier, tier)) * 0.9, start)
    ensures end - start >= 14 ==>
      NightlyRate(roomTier, tier, start, end) != SeasonalRate(BaseRate(TierToUse(roomTier, tier)) * 0.85, start)
    ensures end - start < 7 ==>
      NightlyRate(roomTier, tier, start, end) == SeasonalRate(BaseRate(TierToUse(roomTier, tier)), start)
  {
  }

  /** A stay starting in December, January, February, July or August costs
      1.2 times the off-season rate; any other stay pays the off-season rate. */
  lemma HighSeasonSurcharge(roomTier: string, tier: Option<string>, start: int, end: int)
    ensures HighSeason(Calendar.MonthOf(start)) ==>
      NightlyRate(roomTier, tier, start, end) == 1.2 * LongStayRate(BaseRate(TierToUse(roomTier, tier)), end - start)
    ensures !HighSeason(Calendar.MonthOf(start)) ==>
      NightlyRate(roomTier, tier, start, end) == LongStayRate(BaseRate(TierToUse(roomTier, tier)), end - start)
  {
  }

  // -------------------------------------------------------------- confidence

  /** The number of stays in the room that began at most 90 days before `now`. */
  function RecentStays(stays: seq<Stay>, roomId: int, now: int): (n: nat)
    ensures n <= |stays|
    ensures n == |Filter(stays, (s: Stay) => s.roomId == roomId && s.checkIn >= now - 90)|
  {
    if stays == [] then 0
    else RecentStays(stays[..|stays| - 1], roomId, now)
         + (if stays[|stays| - 1].roomId == roomId && stays[|stays| - 1].checkIn >= now - 90 then 1 else 0)
  }

  function HistoryBonus(recent: int): real {
    if recent > 10 then 0.2 else if recent > 5 then 0.1 else 0.0
  }

  function StatusBonus(status: string): real {
    if status == "Limpia" then 0.2 else if status == "Ocupada" then -0.3 else 0.0
  }

  function PackageBonus(hasPackage: bool): real {
    if hasPackage then 0.1 else 0.0
  }

  /** The confidence as a sum of independent bonuses, capped above at 1.0;
      with no lower clamp it never falls below 0.2. */
  function RoomConfidence(room: Room, stays: seq<Stay>, now: int): (c: real)
    ensures 0.2 <= c <= 1.0
  {
    var raw := 0.5 + HistoryBonus(RecentStays(stays, room.id, now)) + StatusBonus(room.status)
               + PackageBonus(room.hasPackage);
    if raw <= 1.0 then raw else 1.0
  }

  /** `_calculate_room_confidence`, accumulating its adjustments in turn. */
  method CalculateConfidence(room: Room, stays: seq<Stay>, now: int) returns (c: real)
    ensures c == RoomConfidence(room, stays, now)
  {
    c := 0.5;
    var recent := RecentStays(stays, room.id, now);
    if recent > 10 {
      c := c + 0.2;
    } else if recent > 5 {
      c := c + 0.1;
    }
    if room.status == "Limpia" {
      c := c + 0.2;
    } else if room.status == "Ocupada" {
      c := c - 0.3;
    }
    if room.hasPackage {
      c := c + 0.1;
    }
    if c > 1.0 {
      c := 1.0;
    }
  }

  /** All else equal, a clean room is never less trusted than any other, and
      an occupied one never more. */
  lemma CleanRoomsFirst(room: Room, stays: seq<Stay>, now: int, status: string)
    ensures room.status == "Limpia" ==>
      RoomConfidence(room, stays, now) >= RoomConfidence(room.(status := status), stays, now)
    ensures room.status == "Ocupada" ==>
      RoomConfidence(room, stays, now) <= RoomConfidence(room.(status := status), stays, now)
  {
  }

  // ------------------------------------------------------------ direct search

  /** The body of the direct-availability loop for one room. */
  function DirectFor(room: Room, stays: seq<Stay>, req: Request, now: int): seq<Suggestion> {
    var price := EstimatedPrice(room.tier, None, req.checkIn, req.checkOut);
    if OverBudget(price, req) then []
    else [Suggestion(AvailableRoom, High, Some(room.id), None, Some(price), RoomConfidence(room, stays, now),
                     None, None, DirectInfo(room.tier, Nights(req)))]
  }

  function DirectOver(cands: seq<Room>, stays: seq<Stay>, req: Request, now: int): seq<Suggestion> {
    if cands == [] then []
    else DirectOver(cands[..|cands| - 1], stays, req, now) + DirectFor(cands[|cands| - 1], stays, req, now)
  }

  function DirectAvailability(rooms: seq<Room>, stays: seq<Stay>, req: Request, now: int): seq<Suggestion> {
    DirectOver(OpenRooms(rooms, stays, req.checkIn, req.checkOut, req.preferredTier), stays, req, now)
  }

  /** `_check_direct_availability`. */
  method CheckDirectAvailability(rooms: seq<Room>, stays: seq<Stay>, req: Request, now: int)
    returns (sols: seq<Suggestion>)
    ensures sols == DirectAvailability(rooms, stays, req, now)
  {
    var available := OpenRooms(rooms, stays, req.checkIn, req.checkOut, req.preferredTier);
    sols := [];
    var i := 0;
    while i < |available|
      invariant 0 <= i <= |available|
      invariant sols == DirectOver(available[..i], stays, req, now)
    {
      assert available[..i + 1][..i] == available[..i];
      var found := DirectCandidate(available[i], stays, req, now);
      sols := sols + found;
      i := i + 1;
    }
    assert available[..|available|] == available;
  }

  /** The loop body for one free room: skipped when over budget. */
  method DirectCandidate(room: Room, stays: seq<Stay>, req: Request, now: int) returns (found: seq<Suggestion>)
    ensures found == DirectFor(room, stays, req, now)
  {
    var price := EstimatedPrice(room.tier, None, req.checkIn, req.checkOut);
    if RealTruthy(req.maxBudget) && price > req.maxBudget.value {
      return [];
    }
    var confidence := CalculateConfidence(room, stays, now);
    found := [Suggestion(AvailableRoom, High, Some(room.id), None, Some(price), confidence,
                         None, None, DirectInfo(room.tier, Nights(req)))];
  }

  lemma {:induction false} DirectOverFrom(cands: seq<Room>, stays: seq<Stay>, req: Request, now: int, k: nat)
    returns (room: Room)
    requires k < |DirectOver(cands, stays, req, now)|
    ensures room in cands && DirectFor(room, stays, req, now) == [DirectOver(cands, stays, req, now)[k]]
  {
    var p := cands[..|cands| - 1];
    if k < |DirectOver(p, stays, req, now)| {
      room := DirectOverFrom(p, stays, req, now, k);
    } else {
      room := cands[|cands| - 1];
    }
  }

  lemma {:induction false} DirectOverHas(cands: seq<Room>, stays: seq<Stay>, req: Request, now: int, room: Room)
    requires room in cands && DirectFor(room, stays, req, now) != []
    ensures DirectFor(room, stays, req, now)[0] in DirectOver(cands, stays, req, now)
  {
    var p := cands[..|cands| - 1];
    assert cands == p + [cands[|cands| - 1]];
    if room in p {
      DirectOverHas(p, stays, req, now, room);
    }
  }

  /** Every direct suggestion is a room that is free for the requested dates,
      of the preferred tier when one is given, priced by the estimator within
      budget, with HIGH priority and the room's own confidence. */
  lemma DirectSound(rooms: seq<Room>, stays: seq<Stay>, req: Request, now: int, k: nat) returns (room: Room)
    requires k < |DirectAvailability(rooms, stays, req, now)|
    ensures room in rooms && room.id !in OccupiedRooms(stays, req.checkIn, req.checkOut)
    ensures StrTruthy(req.preferredTier) ==> room.tier == req.preferredTier.value
    ensures var s := DirectAvailability(rooms, stays, req, now)[k];
      s.kind == AvailableRoom && s.priority == High && s.roomId == Some(room.id)
      && s.estimatedPrice == Some(EstimatedPrice(room.tier, None, req.checkIn, req.checkOut))
      && !OverBudget(s.estimatedPrice.value, req) && s.confidence == RoomConfidence(room, stays, now)
  {
    room := DirectOverFrom(OpenRooms(rooms, stays, req.checkIn, req.checkOut, req.preferredTier), stays, req, now, k);
    OpenRoomsMembers(rooms, stays, req.checkIn, req.checkOut, req.preferredTier);
  }

  /** Conversely, every free room of the preferred tier within budget is offered. */
  lemma DirectComplete(rooms: seq<Room>, stays: seq<Stay>, req: Request, now: int, room: Room)
    requires room in rooms && room.id !in OccupiedRooms(stays, req.checkIn, req.checkOut)
    requires StrTruthy(req.preferredTier) ==> room.tier == req.preferredTier.value
    requires !OverBudget(EstimatedPrice(room.tier, None, req.checkIn, req.checkOut), req)
    ensures exists s :: (s in DirectAvailability(rooms, stays, req, now)
                         && s.kind == AvailableRoom && s.roomId == Some(room.id))
  {
    OpenRoomsMembers(rooms, stays, req.checkIn, req.checkOut, req.preferredTier);
    DirectOverHas(OpenRooms(rooms, stays, req.checkIn, req.checkOut, req.preferredTier), stays, req, now, room);
  }

  // ----------------------------------------------------------- flexible dates

  /** The body of the flexible-dates inner loop: `room` for the request
      shifted by `offset` days, same duration, confidence lowered by
      0.1 per day of shift. */
  function ShiftFor(room: Room, stays: seq<Stay>, req: Request, now: int, offset: int): seq<Suggestion> {
    var altIn := req.checkIn + offset;
    var altOut := altIn + Nights(req);
    var price := EstimatedPrice(room.tier, None, altIn, altOut);
    if OverBudget(price, req) then []
    else [Suggestion(AlternativeDates, Medium, Some(room.id), Some((altIn, altOut)), Some(price),
                     RoomConfidence(room, stays, now) - (Abs(offset) as real) * 0.1,
                     None, None, ShiftInfo(offset, room.tier, (req.checkIn, req.checkOut)))]
  }

  function ShiftOver(cands: seq<Room>, stays: seq<Stay>, req: Request, now: int, offset: int): seq<Suggestion> {
    if cands == [] then []
    else ShiftOver(cands[..|cands| - 1], stays, req, now, offset) + ShiftFor(cands[|cands| - 1], stays, req, now, offset)
  }

  /** The first three free rooms of the preferred tier for the shifted dates
      (check-in + offset + duration is check-out + offset). */
  function ShiftRooms(rooms: seq<Room>, stays: seq<Stay>, req: Request, offset: int): seq<Room> {
    Sorting.Take(OpenRooms(rooms, stays, req.checkIn + offset, req.checkOut + offset, req.preferredTier), 3)
  }

  /** The suggestions for the offsets -flexibleDays .. hi - 1, zero skipped. */
  function ShiftsBelow(rooms: seq<Room>, stays: seq<Stay>, req: Request, now: int, hi: int): seq<Suggestion>
    decreases hi + req.flexibleDays
  {
    if hi <= -req.flexibleDays then []
    else
      ShiftsBelow(rooms, stays, req, now, hi - 1)
      + (if hi - 1 == 0 then [] else ShiftOver(ShiftRooms(rooms, stays, req, hi - 1), stays, req, now, hi - 1))
  }

  function FlexibleAlternatives(rooms: seq<Room>, stays: seq<Stay>, req: Request, now: int): seq<Suggestion> {
    ShiftsBelow(rooms, stays, req, now, req.flexibleDays + 1)
  }

  /** The inner loop of `_find_flexible_date_alternatives` for one offset. */
  method ShiftSuggestions(cands: seq<Room>, stays: seq<Stay>, req: Request, now: int, offset: int)
    returns (sols: seq<Suggestion>)
    ensures sols == ShiftOver(cands, stays, req, now, offset)
  {
    sols := [];
    var i := 0;
    while i < |cands|
      invariant 0 <= i <= |cands|
      invariant sols == ShiftOver(cands[..i], stays, req, now, offset)
    {
      assert cands[..i + 1][..i] == cands[..i];
      var found := ShiftCandidate(cands[i], stays, req, now, offset);
      sols := sols + found;
      i := i + 1;
    }
    assert cands[..|cands|] == cands;
  }

  /** The inner loop body for one room and one offset. */
  method ShiftCandidate(room: Room, stays: seq<Stay>, req: Request, now: int, offset: int)
    returns (found: seq<Suggestion>)
    ensures found == ShiftFor(room, stays, req, now, offset)
  {
    var altIn := req.checkIn + offset;
    var altOut := altIn + Nights(req);
    var price := EstimatedPrice(room.tier, None, altIn, altOut);
    if RealTruthy(req.maxBudget) && price > req.maxBudget.value {
      return [];
    }
    var confidence := CalculateConfidence(room, stays, now);
    confidence := confidence - (Abs(offset) as real) * 0.1;
    found := [Suggestion(AlternativeDates, Medium, Some(room.id), Some((altIn, altOut)), Some(price),
                         confidence, None, None, ShiftInfo(offset, room.tier, (req.checkIn, req.checkOut)))];
  }

  /** `_find_flexible_date_alternatives`. */
  method FindFlexibleDateAlternatives(rooms: seq<Room>, stays: seq<Stay>, req: Request, now: int)
    returns (sols: seq<Suggestion>)
    ensures sols == FlexibleAlternatives(rooms, stays, req, now)
  {
    sols := [];
    if req.flexibleDays < 0 {
      assert req.flexibleDays + 1 <= -req.flexibleDays;
      return;
    }
    for offset := -req.flexibleDays to req.flexibleDays + 1
      invariant sols == ShiftsBelow(rooms, stays, req, now, offset)
    {
      sols := ShiftStep(rooms, stays, req, now, offset, sols);
    }
  }

  /** One pass of the offset loop: the suggestions for `offset`, unless it is zero. */
  method ShiftStep(rooms: seq<Room>, stays: seq<Stay>, req: Request, now: int, offset: int, sols: seq<Suggestion>)
    returns (next: seq<Suggestion>)
    requires offset >= -req.flexibleDays
    requires sols == ShiftsBelow(rooms, stays, req, now, offset)
    ensures next == ShiftsBelow(rooms, stays, req, now, offset + 1)
  {
    next := sols;
    if offset != 0 {
      var found := ShiftSuggestions(ShiftRooms(rooms, stays, req, offset), stays, req, now, offset);
      next := sols + found;
    }
    ShiftsBelowStep(rooms, stays, req, now, offset + 1);
  }

  /** One more offset appends that offset's suggestions. */
  lemma ShiftsBelowStep(rooms: seq<Room>, stays: seq<Stay>, req: Request, now: int, hi: int)
    requires hi > -req.flexibleDays
    ensures ShiftsBelow(rooms, stays, req, now, hi) == ShiftsBelow(rooms, stays, req, now, hi - 1)
      + (if hi - 1 == 0 then [] else ShiftOver(ShiftRooms(rooms, stays, req, hi - 1), stays, req, now, hi - 1))
  {
  }

  lemma {:induction false} ShiftOverFrom(cands: seq<Room>, stays: seq<Stay>, req: Request, now: int, offset: int, k: nat)
    returns (room: Room)
    requires k < |ShiftOver(cands, stays, req, now, offset)|
    ensures room in cands
      && ShiftFor(room, stays, req, now, offset) == [ShiftOver(cands, stays, req, now, offset)[k]]
  {
    var p := cands[..|cands| - 1];
    if k < |ShiftOver(p, stays, req, now, offset)| {
      room := ShiftOverFrom(p, stays, req, now, offset, k);
    } else {
      room := cands[|cands| - 1];
    }
  }

  lemma {:induction false} ShiftsBelowFrom(rooms: seq<Room>, stays: seq<Stay>, req: Request, now: int, hi: int, k: nat)
    returns (offset: int, j: nat)
    requires k < |ShiftsBelow(rooms, stays, req, now, hi)|
    ensures -req.flexibleDays <= offset < hi && offset != 0
    ensures j < |ShiftOver(ShiftRooms(rooms, stays, req, offset), stays, req, now, offset)|
    ensures ShiftOver(ShiftRooms(rooms, stays, req, offset), stays, req, now, offset)[j]
      == ShiftsBelow(rooms, stays, req, now, hi)[k]
    decreases hi + req.flexibleDays
  {
    var below := ShiftsBelow(rooms, stays, req, now, hi - 1);
    var here := if hi - 1 == 0 then [] else ShiftOver(ShiftRooms(rooms, stays, req, hi - 1), stays, req, now, hi - 1);
    assert ShiftsBelow(rooms, stays, req, now, hi) == below + here;
    if k < |below| {
      offset, j := ShiftsBelowFrom(rooms, stays, req, now, hi - 1, k);
    } else {
      offset, j := hi - 1, k - |below|;
    }
  }

  lemma ShiftShape(room: Room, stays: seq<Stay>, req: Request, now: int, offset: int, s: Suggestion)
    requires ShiftFor(room, stays, req, now, offset) == [s]
    ensures s.kind == AlternativeDates && s.priority == Medium && s.roomId == Some(room.id)
      && s.alternativeDates == Some((req.checkIn + offset, req.checkOut + offset))
      && s.estimatedPrice == Some(EstimatedPrice(room.tier, None, req.checkIn + offset, req.checkOut + offset))
      && !OverBudget(s.estimatedPrice.value, req)
      && s.confidence == RoomConfidence(room, stays, now) - (Abs(offset) as real) * 0.1
  {
    assert req.checkIn + offset + Nights(req) == req.checkOut + offset;
  }

  lemma ShiftRoomFree(rooms: seq<Room>, stays: seq<Stay>, req: Request, offset: int, room: Room)
    requires room in ShiftRooms(rooms, stays, req, offset)
    ensures room in rooms && room.id !in OccupiedRooms(stays, req.checkIn + offset, req.checkOut + offset)
    ensures StrTruthy(req.preferredTier) ==> room.tier == req.preferredTier.value
    ensures |ShiftRooms(rooms, stays, req, offset)| <= 3
  {
    Sorting.TakePrefix(OpenRooms(rooms, stays, req.checkIn + offset, req.checkOut + offset, req.preferredTier), 3);
    OpenRoomsMembers(rooms, stays, req.checkIn + offset, req.checkOut + offset, req.preferredTier);
  }

  /** Every flexible-date suggestion shifts the request by a non-zero offset
      of at most `flexibleDays` days, keeps its duration, offers a room that
      is free for the shifted dates, is one of the first three such rooms of
      the preferred tier, and loses 0.1 confidence per day of shift. */
  lemma FlexibleSound(rooms: seq<Room>, stays: seq<Stay>, req: Request, now: int, k: nat)
    returns (offset: int, room: Room)
    requires k < |FlexibleAlternatives(rooms, stays, req, now)|
    ensures -req.flexibleDays <= offset <= req.flexibleDays && offset != 0
    ensures room in rooms && room.id !in OccupiedRooms(stays, req.checkIn + offset, req.checkOut + offset)
    ensures StrTruthy(req.preferredTier) ==> room.tier == req.preferredTier.value
    ensures room in ShiftRooms(rooms, stays, req, offset) && |ShiftRooms(rooms, stays, req, offset)| <= 3
    ensures var s := FlexibleAlternatives(rooms, stays, req, now)[k];
      s.kind == AlternativeDates && s.priority == Medium && s.roomId == Some(room.id)
      && s.alternativeDates == Some((req.checkIn + offset, req.checkOut + offset))
      && s.alternativeDates.value.1 - s.alternativeDates.value.0 == Nights(req)
      && s.estimatedPrice == Some(EstimatedPrice(room.tier, None, req.checkIn + offset, req.checkOut + offset))
      && !OverBudget(s.estimatedPrice.value, req)
      && s.confidence == RoomConfidence(room, stays, now) - (Abs(offset) as real) * 0.1
  {
    var j;
    offset, j := ShiftsBelowFrom(rooms, stays, req, now, req.flexibleDays + 1, k);
    room := ShiftOverFrom(ShiftRooms(rooms, stays, req, offset), stays, req, now, offset, j);
    var s := FlexibleAlternatives(rooms, stays, req, now)[k];
    assert s == ShiftsBelow(rooms, stays, req, now, req.flexibleDays + 1)[k];
    ShiftShape(room, stays, req, now, offset, s);
    ShiftRoomFree(rooms, stays, req, offset, room);
  }

  // ----------------------------------------------------------------- upgrades

  /** `tier_hierarchy`, lowest first. */
  const TierHierarchy: seq<string> := ["Económica", "Estándar", "Superior", "Suite"]

  /** `tier_hierarchy.index(tier)`, or None where Python raises ValueError. */
  function HierarchyIndex(tier: string): (r: Option<nat>)
    ensures r.Some? ==> r.value < |TierHierarchy| && TierHierarchy[r.value] == tier
    ensures r.None? <==> tier !in TierHierarchy
  {
    if tier == TierHierarchy[0] then Some(0)
    else if tier == TierHierarchy[1] then Some(1)
    else if tier == TierHierarchy[2] then Some(2)
    else if tier == TierHierarchy[3] then Some(3)
    else None
  }

  /** The body of the upgrade loop: `room` (of hierarchy level `level`)
      offered to a guest who asked for level `current`. */
  function UpgradeFor(room: Room, stays: seq<Stay>, req: Request, now: int, current: nat, level: nat): seq<Suggestion>
    requires StrTruthy(req.preferredTier) && level < |TierHierarchy|
  {
    var basePrice := EstimatedPrice(room.tier, req.preferredTier, req.checkIn, req.checkOut);
    var upgradePrice := EstimatedPrice(room.tier, None, req.checkIn, req.checkOut);
    var upgradeCost := upgradePrice - basePrice;
    if OverBudget(upgradePrice, req) then []
    else
      var tierDiff := level - current;
      [Suggestion(RoomUpgrade, Medium, Some(room.id), None, Some(upgradePrice),
                  RoomConfidence(room, stays, now) + (tierDiff as real) * 0.05, None, Some(tierDiff),
                  UpgradeInfo(req.preferredTier.value, TierHierarchy[level], upgradeCost, tierDiff))]
  }

  function UpgradesOver(cands: seq<Room>, stays: seq<Stay>, req: Request, now: int, current: nat, level: nat)
    : seq<Suggestion>
    requires StrTruthy(req.preferredTier) && level < |TierHierarchy|
  {
    if cands == [] then []
    else UpgradesOver(cands[..|cands| - 1], stays, req, now, current, level)
         + UpgradeFor(cands[|cands| - 1], stays, req, now, current, level)
  }

  /** Rooms of the given level free for the requested dates, in query order:
      the free rooms narrowed to that level's tier. */
  function UpgradeRooms(rooms: seq<Room>, stays: seq<Stay>, req: Request, level: nat): seq<Room>
    requires level < |TierHierarchy|
  {
    OpenRooms(rooms, stays, req.checkIn, req.checkOut, Some(TierHierarchy[level]))
  }

  lemma UpgradeRoomsMembers(rooms: seq<Room>, stays: seq<Stay>, req: Request, level: nat)
    requires level < |TierHierarchy|
    ensures forall r :: r in UpgradeRooms(rooms, stays, req, level) <==>
      r in rooms && r.tier == TierHierarchy[level] && r.id !in OccupiedRooms(stays, req.checkIn, req.checkOut)
  {
    assert StrTruthy(Some(TierHierarchy[level]));
    OpenRoomsMembers(rooms, stays, req.checkIn, req.checkOut, Some(TierHierarchy[level]));
  }

  /** The suggestions for levels current + 1 .. hi - 1. */
  function UpgradesBelow(rooms: seq<Room>, stays: seq<Stay>, req: Request, now: int, current: nat, hi: nat)
    : seq<Suggestion>
    requires StrTruthy(req.preferredTier) && current < hi <= |TierHierarchy|
    decreases hi
  {
    if hi == current + 1 then []
    else UpgradesBelow(rooms, stays, req, now, current, hi - 1)
         + UpgradesOver(UpgradeRooms(rooms, stays, req, hi - 1), stays, req, now, current, hi - 1)
  }

  function UpgradeOpportunities(rooms: seq<Room>, stays: seq<Stay>, req: Request, now: int): seq<Suggestion> {
    if !StrTruthy(req.preferredTier) then []
    else
      match HierarchyIndex(req.preferredTier.value)
      case None => []
      case Some(current) => UpgradesBelow(rooms, stays, req, now, current, |TierHierarchy|)
  }

  /** The inner loop of `_find_upgrade_opportunities` for one higher tier. */
  method UpgradeSuggestions(cands: seq<Room>, stays: seq<Stay>, req: Request, now: int, current: nat, level: nat)
    returns (sols: seq<Suggestion>)
    requires StrTruthy(req.preferredTier) && level < |TierHierarchy|
    ensures sols == UpgradesOver(cands, stays, req, now, current, level)
  {
    sols := [];
    var i := 0;
    while i < |cands|
      invariant 0 <= i <= |cands|
      invariant sols == UpgradesOver(cands[..i], stays, req, now, current, level)
    {
      assert cands[..i + 1][..i] == cands[..i];
      var found := UpgradeCandidate(cands[i], stays, req, now, current, level);
      sols := sols + found;
      i := i + 1;
    }
    assert cands[..|cands|] == cands;
  }

  /** The inner loop body for one room of the higher tier. */
  method UpgradeCandidate(room: Room, stays: seq<Stay>, req: Request, now: int, current: nat, level: nat)
    returns (found: seq<Suggestion>)
    requires StrTruthy(req.preferredTier) && level < |TierHierarchy|
    ensures found == UpgradeFor(room, stays, req, now, current, level)
  {
    var basePrice := EstimatedPrice(room.tier, req.preferredTier, req.checkIn, req.checkOut);
    var upgradePrice := EstimatedPrice(room.tier, None, req.checkIn, req.checkOut);
    var upgradeCost := upgradePrice - basePrice;
    if RealTruthy(req.maxBudget) && upgradePrice > req.maxBudget.value {
      return [];
    }
    var tierDiff := level - current;
    var confidence := CalculateConfidence(room, stays, now);
    confidence := confidence + (tierDiff as real) * 0.05;
    found := [Suggestion(RoomUpgrade, Medium, Some(room.id), None, Some(upgradePrice), confidence, None,
                         Some(tierDiff), UpgradeInfo(req.preferredTier.value, TierHierarchy[level], upgradeCost, tierDiff))];
  }

  /** `_find_upgrade_opportunities`. */
  method FindUpgradeOpportunities(rooms: seq<Room>, stays: seq<Stay>, req: Request, now: int)
    returns (sols: seq<Suggestion>)
    ensures sols == UpgradeOpportunities(rooms, stays, req, now)
  {
    sols := [];
    if !StrTruthy(req.preferredTier) {
      return;
    }
    var index := HierarchyIndex(req.preferredTier.value);
    if index.None? {
      return;
    }
    var current := index.value;
    var level := current + 1;
    while level < |TierHierarchy|
      invariant current < level <= |TierHierarchy|
      invariant sols == UpgradesBelow(rooms, stays, req, now, current, level)
      decreases |TierHierarchy| - level
    {
      var found := UpgradeSuggestions(UpgradeRooms(rooms, stays, req, level), stays, req, now, current, level);
      sols := sols + found;
      level := level + 1;
    }
  }

  lemma {:induction false} UpgradesOverFrom(cands: seq<Room>, stays: seq<Stay>, req: Request, now: int,
                                            current: nat, level: nat, k: nat)
    returns (room: Room)
    requires StrTruthy(req.preferredTier) && level < |TierHierarchy|
    requires k < |UpgradesOver(cands, stays, req, now, current, level)|
    ensures room in cands
      && UpgradeFor(room, stays, req, now, current, level) == [UpgradesOver(cands, stays, req, now, current, level)[k]]
  {
    var p := cands[..|cands| - 1];
    if k < |UpgradesOver(p, stays, req, now, current, level)| {
      room := UpgradesOverFrom(p, stays, req, now, current, level, k);
    } else {
      room := cands[|cands| - 1];
    }
  }

  lemma {:induction false} UpgradesBelowFrom(rooms: seq<Room>, stays: seq<Stay>, req: Request, now: int,
                                             current: nat, hi: nat, k: nat)
    returns (level: nat, j: nat)
    requires StrTruthy(req.preferredTier) && current < hi <= |TierHierarchy|
    requires k < |UpgradesBelow(rooms, stays, req, now, current, hi)|
    ensures current < level < hi
    ensures j < |UpgradesOver(UpgradeRooms(rooms, stays, req, level), stays, req, now, current, level)|
    ensures UpgradesOver(UpgradeRooms(rooms, stays, req, level), stays, req, now, current, level)[j]
      == UpgradesBelow(rooms, stays, req, now, current, hi)[k]
    decreases hi
  {
    var below := UpgradesBelow(rooms, stays, req, now, current, hi - 1);
    var here := UpgradesOver(UpgradeRooms(rooms, stays, req, hi - 1), stays, req, now, current, hi - 1);
    assert UpgradesBelow(rooms, stays, req, now, current, hi) == below + here;
    if k < |below| {
      level, j := UpgradesBelowFrom(rooms, stays, req, now, current, hi - 1, k);
    } else {
      level, j := hi - 1, k - |below|;
    }
  }

  lemma UpgradeShape(room: Room, stays: seq<Stay>, req: Request, now: int, current: nat, level: nat, s: Suggestion)
    requires StrTruthy(req.preferredTier) && level < |TierHierarchy|
    requires UpgradeFor(room, stays, req, now, current, level) == [s]
    ensures s.kind == RoomUpgrade && s.priority == Medium && s.roomId == Some(room.id)
      && s.estimatedPrice == Some(EstimatedPrice(room.tier, None, req.checkIn, req.checkOut))
      && !OverBudget(s.estimatedPrice.value, req)
      && s.details.UpgradeInfo?
      && s.details.upgradeCost == EstimatedPrice(room.tier, None, req.checkIn, req.checkOut)
                                  - EstimatedPrice(room.tier, req.preferredTier, req.checkIn, req.checkOut)
      && s.details.levelsUp == level - current && s.upgradeValue == Some(level - current)
      && s.confidence == RoomConfidence(room, stays, now) + ((level - current) as real) * 0.05
  {
  }

  /** No upgrade is offered unless a preferred tier is given and found in the
      hierarchy; every upgrade offers a free room of a strictly higher tier,
      costs the difference between its own estimate and the estimate at the
      preferred tier's rate, and gains 0.05 confidence per level. */
  lemma UpgradeSound(rooms: seq<Room>, stays: seq<Stay>, req: Request, now: int, k: nat)
    returns (current: nat, level: nat, room: Room)
    requires k < |UpgradeOpportunities(rooms, stays, req, now)|
    ensures StrTruthy(req.preferredTier) && HierarchyIndex(req.preferredTier.value) == Some(current)
    ensures current < level < |TierHierarchy| && room.tier == TierHierarchy[level]
    ensures room in rooms && room.id !in OccupiedRooms(stays, req.checkIn, req.checkOut)
    ensures var s := UpgradeOpportunities(rooms, stays, req, now)[k];
      s.kind == RoomUpgrade && s.priority == Medium && s.roomId == Some(room.id)
      && s.estimatedPrice == Some(EstimatedPrice(room.tier, None, req.checkIn, req.checkOut))
      && !OverBudget(s.estimatedPrice.value, req)
      && s.details.UpgradeInfo?
      && s.details.upgradeCost == EstimatedPrice(room.tier, None, req.checkIn, req.checkOut)
                                  - EstimatedPrice(room.tier, req.preferredTier, req.checkIn, req.checkOut)
      && s.upgradeValue == Some(level - current)
      && s.confidence == RoomConfidence(room, stays, now) + ((level - current) as real) * 0.05
  {
    current := HierarchyIndex(req.preferredTier.value).value;
    var s := UpgradeOpportunities(rooms, stays, req, now)[k];
    assert s == UpgradesBelow(rooms, stays, req, now, current, |TierHierarchy|)[k];
    var j;
    level, j := UpgradesBelowFrom(rooms, stays, req, now, current, |TierHierarchy|, k);
    room := UpgradesOverFrom(UpgradeRooms(rooms, stays, req, level), stays, req, now, current, level, j);
    UpgradeShape(room, stays, req, now, current, level, s);
    UpgradeRoomsMembers(rooms, stays, req, level);
  }

  /** The hierarchy's rates rise with the level, so for a stay of
      non-negative length an upgrade never costs less than the preferred tier. */
  lemma UpgradeCostNonNegative(from: nat, to: nat, start: int, end: int)
    requires from < to < |TierHierarchy| && start <= end
    ensures EstimatedPrice(TierHierarchy[to], None, start, end)
            >= EstimatedPrice(TierHierarchy[to], Some(TierHierarchy[from]), start, end)
  {
    var lo := NightlyRate(TierHierarchy[to], Some(TierHierarchy[from]), start, end);
    var hi := NightlyRate(TierHierarchy[to], None, start, end);
    assert BaseRate(TierHierarchy[from]) < BaseRate(TierHierarchy[to]);
    assert lo <= hi;
    ProductOrder(lo, hi, (end - start) as real);
  }

  lemma ProductOrder(lo: real, hi: real, n: real)
    requires lo <= hi && n >= 0.0
    ensures lo * n <= hi * n
  {
  }

  // -------------------------------------------------------------- split stay

  /** `check_in + stay_duration // 2`. */
  function Midpoint(req: Request): int {
    req.checkIn + Nights(req) / 2
  }

  /** The body of the split loops: `room1` for [check-in, mid), `room2` for
      [mid, check-out). */
  function SplitFor(room1: Room, room2: Room, stays: seq<Stay>, req: Request, now: int, mid: int): seq<Suggestion> {
    if room1.id == room2.id then []
    else
      var price1 := EstimatedPrice(room1.tier, None, req.checkIn, mid);
      var price2 := EstimatedPrice(room2.tier, None, mid, req.checkOut);
      var total := price1 + price2;
      if OverBudget(total, req) then []
      else [Suggestion(SplitStay, Low, None, None, Some(total),
                       (RoomConfidence(room1, stays, now) + RoomConfidence(room2, stays, now)) / 2.0 - 0.2,
                       None, None, SplitInfo(room1.id, room2.id, mid, price1, price2))]
  }

  function SplitsWith(room1: Room, seconds: seq<Room>, stays: seq<Stay>, req: Request, now: int, mid: int)
    : seq<Suggestion>
  {
    if seconds == [] then []
    else SplitsWith(room1, seconds[..|seconds| - 1], stays, req, now, mid)
         + SplitFor(room1, seconds[|seconds| - 1], stays, req, now, mid)
  }

  function SplitsAcross(firsts: seq<Room>, seconds: seq<Room>, stays: seq<Stay>, req: Request, now: int, mid: int)
    : seq<Suggestion>
  {
    if firsts == [] then []
    else SplitsAcross(firsts[..|firsts| - 1], seconds, stays, req, now, mid)
         + SplitsWith(firsts[|firsts| - 1], seconds, stays, req, now, mid)
  }

  function FirstHalfRooms(rooms: seq<Room>, stays: seq<Stay>, req: Request): seq<Room> {
    Sorting.Take(OpenRooms(rooms, stays, req.checkIn, Midpoint(req), req.preferredTier), 3)
  }

  function SecondHalfRooms(rooms: seq<Room>, stays: seq<Stay>, req: Request): seq<Room> {
    Sorting.Take(OpenRooms(rooms, stays, Midpoint(req), req.checkOut, req.preferredTier), 3)
  }

  function SplitOptions(rooms: seq<Room>, stays: seq<Stay>, req: Request, now: int): seq<Suggestion> {
    if Nights(req) < 3 then []
    else SplitsAcross(FirstHalfRooms(rooms, stays, req), SecondHalfRooms(rooms, stays, req), stays, req, now,
                      Midpoint(req))
  }

  /** The innermost body of `_find_split_stay_options`. */
  method SplitCandidate(room1: Room, room2: Room, stays: seq<Stay>, req: Request, now: int, mid: int)
    returns (sols: seq<Suggestion>)
    ensures sols == SplitFor(room1, room2, stays, req, now, mid)
  {
    if room1.id == room2.id {
      return [];
    }
    var price1 := EstimatedPrice(room1.tier, None, req.checkIn, mid);
    var price2 := EstimatedPrice(room2.tier, None, mid, req.checkOut);
    var total := price1 + price2;
    if RealTruthy(req.maxBudget) && total > req.maxBudget.value {
      return [];
    }
    var confidence1 := CalculateConfidence(room1, stays, now);
    var confidence2 := CalculateConfidence(room2, stays, now);
    var confidence := (confidence1 + confidence2) / 2.0 - 0.2;
    sols := [Suggestion(SplitStay, Low, None, None, Some(total), confidence, None, None,
                        SplitInfo(room1.id, room2.id, mid, price1, price2))];
  }

  /** `_find_split_stay_options`. */
  method FindSplitStayOptions(rooms: seq<Room>, stays: seq<Stay>, req: Request, now: int)
    returns (sols: seq<Suggestion>)
    ensures sols == SplitOptions(rooms, stays, req, now)
  {
    sols := [];
    if Nights(req) < 3 {
      return;
    }
    sols := SplitGrid(FirstHalfRooms(rooms, stays, req), SecondHalfRooms(rooms, stays, req), stays, req, now,
                      Midpoint(req));
  }

  /** The two nested loops of `_find_split_stay_options`, over the first-half rooms. */
  method SplitGrid(firsts: seq<Room>, seconds: seq<Room>, stays: seq<Stay>, req: Request, now: int, mid: int)
    returns (sols: seq<Suggestion>)
    ensures sols == SplitsAcross(firsts, seconds, stays, req, now, mid)
  {
    sols := [];
    var i := 0;
    while i < |firsts|
      invariant 0 <= i <= |firsts|
      invariant sols == SplitsAcross(firsts[..i], seconds, stays, req, now, mid)
    {
      assert firsts[..i + 1][..i] == firsts[..i];
      assert SplitsAcross(firsts[..i + 1], seconds, stays, req, now, mid)
        == SplitsAcross(firsts[..i], seconds, stays, req, now, mid)
           + SplitsWith(firsts[i], seconds, stays, req, now, mid);
      var row := SplitRow(firsts[i], seconds, stays, req, now, mid);
      sols := sols + row;
      i := i + 1;
    }
    assert firsts[..|firsts|] == firsts;
  }

  /** The inner loop of `_find_split_stay_options`, over the second-half rooms. */
  method SplitRow(room1: Room, seconds: seq<Room>, stays: seq<Stay>, req: Request, now: int, mid: int)
    returns (row: seq<Suggestion>)
    ensures row == SplitsWith(room1, seconds, stays, req, now, mid)
  {
    row := [];
    var j := 0;
    while j < |seconds|
      invariant 0 <= j <= |seconds|
      invariant row == SplitsWith(room1, seconds[..j], stays, req, now, mid)
    {
      assert seconds[..j + 1][..j] == seconds[..j];
      assert SplitsWith(room1, seconds[..j + 1], stays, req, now, mid)
        == SplitsWith(room1, seconds[..j], stays, req, now, mid) + SplitFor(room1, seconds[j], stays, req, now, mid);
      var found := SplitCandidate(room1, seconds[j], stays, req, now, mid);
      row := row + found;
      j := j + 1;
    }
    assert seconds[..|seconds|] == seconds;
  }

  lemma {:induction false} SplitsWithFrom(room1: Room, seconds: seq<Room>, stays: seq<Stay>, req: Request, now: int,
                                          mid: int, k: nat)
    returns (room2: Room)
    requires k < |SplitsWith(room1, seconds, stays, req, now, mid)|
    ensures room2 in seconds
      && SplitFor(room1, room2, stays, req, now, mid) == [SplitsWith(room1, seconds, stays, req, now, mid)[k]]
  {
    var p := seconds[..|seconds| - 1];
    if k < |SplitsWith(room1, p, stays, req, now, mid)| {
      room2 := SplitsWithFrom(room1, p, stays, req, now, mid, k);
    } else {
      room2 := seconds[|seconds| - 1];
    }
  }

  lemma {:induction false} SplitsAcrossFrom(firsts: seq<Room>, seconds: seq<Room>, stays: seq<Stay>, req: Request,
                                            now: int, mid: int, k: nat)
    returns (room1: Room, j: nat)
    requires k < |SplitsAcross(firsts, seconds, stays, req, now, mid)|
    ensures room1 in firsts && j < |SplitsWith(room1, seconds, stays, req, now, mid)|
    ensures SplitsWith(room1, seconds, stays, req, now, mid)[j] == SplitsAcross(firsts, seconds, stays, req, now, mid)[k]
  {
    var p := firsts[..|firsts| - 1];
    var below := SplitsAcross(p, seconds, stays, req, now, mid);
    var here := SplitsWith(firsts[|firsts| - 1], seconds, stays, req, now, mid);
    assert SplitsAcross(firsts, seconds, stays, req, now, mid) == below + here;
    if k < |below| {
      room1, j := SplitsAcrossFrom(p, seconds, stays, req, now, mid, k);
    } else {
      room1, j := firsts[|firsts| - 1], k - |below|;
    }
  }

  lemma SplitShape(room1: Room, room2: Room, stays: seq<Stay>, req: Request, now: int, mid: int, s: Suggestion)
    requires SplitFor(room1, room2, stays, req, now, mid) == [s]
    ensures room1.id != room2.id
    ensures s.kind == SplitStay && s.priority == Low && s.roomId == None
      && s.details == SplitInfo(room1.id, room2.id, mid, EstimatedPrice(room1.tier, None, req.checkIn, mid),
                                EstimatedPrice(room2.tier, None, mid, req.checkOut))
      && s.estimatedPrice == Some(s.details.price1 + s.details.price2)
      && !OverBudget(s.estimatedPrice.value, req)
      && s.confidence == (RoomConfidence(room1, stays, now) + RoomConfidence(room2, stays, now)) / 2.0 - 0.2
  {
  }

  lemma HalfRoomsFree(rooms: seq<Room>, stays: seq<Stay>, req: Request, room1: Room, room2: Room)
    requires room1 in FirstHalfRooms(rooms, stays, req) && room2 in SecondHalfRooms(rooms, stays, req)
    ensures room1 in rooms && room1.id !in OccupiedRooms(stays, req.checkIn, Midpoint(req))
    ensures room2 in rooms && room2.id !in OccupiedRooms(stays, Midpoint(req), req.checkOut)
    ensures StrTruthy(req.preferredTier) ==> room1.tier == req.preferredTier.value && room2.tier == req.preferredTier.value
    ensures |FirstHalfRooms(rooms, stays, req)| <= 3 && |SecondHalfRooms(rooms, stays, req)| <= 3
  {
    Sorting.TakePrefix(OpenRooms(rooms, stays, req.checkIn, Midpoint(req), req.preferredTier), 3);
    Sorting.TakePrefix(OpenRooms(rooms, stays, Midpoint(req), req.checkOut, req.preferredTier), 3);
    OpenRoomsMembers(rooms, stays, req.checkIn, Midpoint(req), req.preferredTier);
    OpenRoomsMembers(rooms, stays, Midpoint(req), req.checkOut, req.preferredTier);
  }

  /** Splits are offered only for stays of three nights or more, always at
      check-in + nights // 2, strictly inside the stay; the two rooms are
      distinct, each free for its half and drawn from the first three
      candidates of that half; the price is the sum of the two halves'
      estimates and the confidence is their mean less 0.2. */
  lemma SplitSound(rooms: seq<Room>, stays: seq<Stay>, req: Request, now: int, k: nat)
    returns (room1: Room, room2: Room)
    requires k < |SplitOptions(rooms, stays, req, now)|
    ensures Nights(req) >= 3 && req.checkIn < Midpoint(req) < req.checkOut
    ensures (Midpoint(req) - req.checkIn) + (req.checkOut - Midpoint(req)) == Nights(req)
    ensures room1.id != room2.id
    ensures room1 in rooms && room1.id !in OccupiedRooms(stays, req.checkIn, Midpoint(req))
    ensures room2 in rooms && room2.id !in OccupiedRooms(stays, Midpoint(req), req.checkOut)
    ensures StrTruthy(req.preferredTier) ==> room1.tier == req.preferredTier.value && room2.tier == req.preferredTier.value
    ensures room1 in FirstHalfRooms(rooms, stays, req) && |FirstHalfRooms(rooms, stays, req)| <= 3
    ensures room2 in SecondHalfRooms(rooms, stays, req) && |SecondHalfRooms(rooms, stays, req)| <= 3
    ensures var s := SplitOptions(rooms, stays, req, now)[k];
      s.kind == SplitStay && s.priority == Low
      && s.details == SplitInfo(room1.id, room2.id, Midpoint(req),
                                EstimatedPrice(room1.tier, None, req.checkIn, Midpoint(req)),
                                EstimatedPrice(room2.tier, None, Midpoint(req), req.checkOut))
      && s.estimatedPrice == Some(s.details.price1 + s.details.price2)
      && !OverBudget(s.estimatedPrice.value, req)
      && s.confidence == (RoomConfidence(room1, stays, now) + RoomConfidence(room2, stays, now)) / 2.0 - 0.2
  {
    room1, room2 := SplitAt(rooms, stays, req, now, k);
    SplitShape(room1, room2, stays, req, now, Midpoint(req), SplitOptions(rooms, stays, req, now)[k]);
    HalfRoomsFree(rooms, stays, req, room1, room2);
  }

  lemma SplitAt(rooms: seq<Room>, stays: seq<Stay>, req: Request, now: int, k: nat) returns (room1: Room, room2: Room)
    requires k < |SplitOptions(rooms, stays, req, now)|
    ensures Nights(req) >= 3
    ensures room1 in FirstHalfRooms(rooms, stays, req) && room2 in SecondHalfRooms(rooms, stays, req)
    ensures SplitFor(room1, room2, stays, req, now, Midpoint(req)) == [SplitOptions(rooms, stays, req, now)[k]]
  {
    var firsts := FirstHalfRooms(rooms, stays, req);
    var seconds := SecondHalfRooms(rooms, stays, req);
    assert SplitOptions(rooms, stays, req, now) == SplitsAcross(firsts, seconds, stays, req, now, Midpoint(req));
    var j;
    room1, j := SplitsAcrossFrom(firsts, seconds, stays, req, now, Midpoint(req), k);
    room2 := SplitsWithFrom(room1, seconds, stays, req, now, Midpoint(req), j);
  }

  lemma {:induction false} SplitsWithBound(room1: Room, seconds: seq<Room>, stays: seq<Stay>, req: Request, now: int,
                                           mid: int)
    ensures |SplitsWith(room1, seconds, stays, req, now, mid)| <= |seconds|
  {
    if seconds != [] {
      SplitsWithBound(room1, seconds[..|seconds| - 1], stays, req, now, mid);
    }
  }

  lemma {:induction false} SplitsAcrossBound(firsts: seq<Room>, seconds: seq<Room>, stays: seq<Stay>, req: Request,
                                             now: int, mid: int)
    requires |seconds| <= 3
    ensures |SplitsAcross(firsts, seconds, stays, req, now, mid)| <= 3 * |firsts|
  {
    if firsts != [] {
      SplitsAcrossBound(firsts[..|firsts| - 1], seconds, stays, req, now, mid);
      SplitsWithBound(firsts[|firsts| - 1], seconds, stays, req, now, mid);
    }
  }

  /** At most three candidates per half give at most nine split suggestions. */
  lemma SplitOptionsBound(rooms: seq<Room>, stays: seq<Stay>, req: Request, now: int)
    ensures |SplitOptions(rooms, stays, req, now)| <= 9
  {
    if Nights(req) >= 3 {
      Sorting.TakePrefix(OpenRooms(rooms, stays, req.checkIn, Midpoint(req), req.preferredTier), 3);
      Sorting.TakePrefix(OpenRooms(rooms, stays, Midpoint(req), req.checkOut, req.preferredTier), 3);
      SplitsAcrossBound(FirstHalfRooms(rooms, stays, req), SecondHalfRooms(rooms, stays, req), stays, req, now,
                        Midpoint(req));
    }
  }

  // ------------------------------------------------------------------ timing

  /** Arriving one day early: the requested stay plus the night before. */
  function EarlyFor(room: Room, stays: seq<Stay>, req: Request, now: int): Suggestion {
    var extra := EstimatedPrice(room.tier, None, req.checkIn - 1, req.checkIn);
    var total := EstimatedPrice(room.tier, None, req.checkIn, req.checkOut) + extra;
    Suggestion(EarlyCheckin, Low, Some(room.id), None, Some(total), RoomConfidence(room, stays, now) - 0.1,
               None, None, ExtraNightInfo(extra, req.checkIn - 1))
  }

  /** Leaving one day late: the requested stay plus the night after. */
  function LateFor(room: Room, stays: seq<Stay>, req: Request, now: int): Suggestion {
    var extra := EstimatedPrice(room.tier, None, req.checkOut, req.checkOut + 1);
    var total := EstimatedPrice(room.tier, None, req.checkIn, req.checkOut) + extra;
    Suggestion(LateCheckout, Low, Some(room.id), None, Some(total), RoomConfidence(room, stays, now) - 0.1,
               None, None, ExtraNightInfo(extra, req.checkOut + 1))
  }

  /** The first two free rooms of the preferred tier for [check-in - 1, check-out). */
  function EarlyRooms(rooms: seq<Room>, stays: seq<Stay>, req: Request): seq<Room> {
    Sorting.Take(OpenRooms(rooms, stays, req.checkIn - 1, req.checkOut, req.preferredTier), 2)
  }

  /** The first two free rooms of the preferred tier for [check-in, check-out + 1). */
  function LateRooms(rooms: seq<Room>, stays: seq<Stay>, req: Request): seq<Room> {
    Sorting.Take(OpenRooms(rooms, stays, req.checkIn, req.checkOut + 1, req.preferredTier), 2)
  }

  function EarlyOver(cands: seq<Room>, stays: seq<Stay>, req: Request, now: int): (r: seq<Suggestion>)
    ensures |r| == |cands|
    ensures forall i :: 0 <= i < |r| ==> r[i].kind == EarlyCheckin && r[i].priority == Low
  {
    if cands == [] then []
    else EarlyOver(cands[..|cands| - 1], stays, req, now) + [EarlyFor(cands[|cands| - 1], stays, req, now)]
  }

  function LateOver(cands: seq<Room>, stays: seq<Stay>, req: Request, now: int): (r: seq<Suggestion>)
    ensures |r| == |cands|
    ensures forall i :: 0 <= i < |r| ==> r[i].kind == LateCheckout && r[i].priority == Low
  {
    if cands == [] then []
    else LateOver(cands[..|cands| - 1], stays, req, now) + [LateFor(cands[|cands| - 1], stays, req, now)]
  }

  /** Early check-in offers first, then late check-out offers; no budget check. */
  function TimingOptions(rooms: seq<Room>, stays: seq<Stay>, req: Request, now: int): seq<Suggestion> {
    EarlyOver(EarlyRooms(rooms, stays, req), stays, req, now) + LateOver(LateRooms(rooms, stays, req), stays, req, now)
  }

  /** The early check-in loop of `_find_timing_optimizations`. */
  method EarlyCheckins(cands: seq<Room>, stays: seq<Stay>, req: Request, now: int) returns (sols: seq<Suggestion>)
    ensures sols == EarlyOver(cands, stays, req, now)
  {
    sols := [];
    var i := 0;
    while i < |cands|
      invariant 0 <= i <= |cands|
      invariant sols == EarlyOver(cands[..i], stays, req, now)
    {
      assert cands[..i + 1][..i] == cands[..i];
      assert EarlyOver(cands[..i + 1], stays, req, now) == EarlyOver(cands[..i], stays, req, now) + [EarlyFor(cands[i], stays, req, now)];
      var offer := EarlyOffer(cands[i], stays, req, now);
      sols := sols + [offer];
      i := i + 1;
    }
    assert cands[..|cands|] == cands;
  }

  /** The early check-in loop body for one room. */
  method EarlyOffer(room: Room, stays: seq<Stay>, req: Request, now: int) returns (offer: Suggestion)
    ensures offer == EarlyFor(room, stays, req, now)
  {
    var extra := EstimatedPrice(room.tier, None, req.checkIn - 1, req.checkIn);
    var base := EstimatedPrice(room.tier, None, req.checkIn, req.checkOut);
    var confidence := CalculateConfidence(room, stays, now);
    offer := Suggestion(EarlyCheckin, Low, Some(room.id), None, Some(base + extra), confidence - 0.1,
                        None, None, ExtraNightInfo(extra, req.checkIn - 1));
  }

  /** The late check-out loop of `_find_timing_optimizations`. */
  method LateCheckouts(cands: seq<Room>, stays: seq<Stay>, req: Request, now: int) returns (sols: seq<Suggestion>)
    ensures sols == LateOver(cands, stays, req, now)
  {
    sols := [];
    var i := 0;
    while i < |cands|
      invariant 0 <= i <= |cands|
      invariant sols == LateOver(cands[..i], stays, req, now)
    {
      assert cands[..i + 1][..i] == cands[..i];
      assert LateOver(cands[..i + 1], stays, req, now) == LateOver(cands[..i], stays, req, now) + [LateFor(cands[i], stays, req, now)];
      var offer := LateOffer(cands[i], stays, req, now);
      sols := sols + [offer];
      i := i + 1;
    }
    assert cands[..|cands|] == cands;
  }

  /** The late check-out loop body for one room. */
  method LateOffer(room: Room, stays: seq<Stay>, req: Request, now: int) returns (offer: Suggestion)
    ensures offer == LateFor(room, stays, req, now)
  {
    var extra := EstimatedPrice(room.tier, None, req.checkOut, req.checkOut + 1);
    var base := EstimatedPrice(room.tier, None, req.checkIn, req.checkOut);
    var confidence := CalculateConfidence(room, stays, now);
    offer := Suggestion(LateCheckout, Low, Some(room.id), None, Some(base + extra), confidence - 0.1,
                        None, None, ExtraNightInfo(extra, req.checkOut + 1));
  }

  /** `_find_timing_optimizations`. */
  method FindTimingOptimizations(rooms: seq<Room>, stays: seq<Stay>, req: Request, now: int)
    returns (sols: seq<Suggestion>)
    ensures sols == TimingOptions(rooms, stays, req, now)
  {
    var early := EarlyCheckins(EarlyRooms(rooms, stays, req), stays, req, now);
    var late := LateCheckouts(LateRooms(rooms, stays, req), stays, req, now);
    sols := early + late;
  }

  lemma {:induction false} EarlyOverAt(cands: seq<Room>, stays: seq<Stay>, req: Request, now: int, k: nat)
    requires k < |cands|
    ensures EarlyOver(cands, stays, req, now)[k] == EarlyFor(cands[k], stays, req, now)
  {
    var p := cands[..|cands| - 1];
    if k < |p| {
      EarlyOverAt(p, stays, req, now, k);
    }
  }

  lemma {:induction false} LateOverAt(cands: seq<Room>, stays: seq<Stay>, req: Request, now: int, k: nat)
    requires k < |cands|
    ensures LateOver(cands, stays, req, now)[k] == LateFor(cands[k], stays, req, now)
  {
    var p := cands[..|cands| - 1];
    if k < |p| {
      LateOverAt(p, stays, req, now, k);
    }
  }

  /** The first two free rooms of the preferred tier for [a, b) are free rooms of that tier. */
  lemma FirstTwoFree(rooms: seq<Room>, stays: seq<Stay>, a: int, b: int, tier: Option<string>, room: Room)
    requires room in Sorting.Take(OpenRooms(rooms, stays, a, b, tier), 2)
    ensures |Sorting.Take(OpenRooms(rooms, stays, a, b, tier), 2)| <= 2
    ensures room in rooms && room.id !in OccupiedRooms(stays, a, b)
    ensures StrTruthy(tier) ==> room.tier == tier.value
  {
    Sorting.TakePrefix(OpenRooms(rooms, stays, a, b, tier), 2);
    OpenRoomsMembers(rooms, stays, a, b, tier);
  }

  /** An early check-in offer is for a room free for [check-in - 1,
      check-out), one of the first two such rooms of the preferred tier; it
      costs the request's estimate plus the estimate of the night before and
      carries the room's confidence less 0.1. */
  lemma EarlySound(rooms: seq<Room>, stays: seq<Stay>, req: Request, now: int, k: nat) returns (room: Room)
    requires k < |EarlyRooms(rooms, stays, req)|
    ensures |EarlyRooms(rooms, stays, req)| <= 2
    ensures room in rooms && room.id !in OccupiedRooms(stays, req.checkIn - 1, req.checkOut)
    ensures StrTruthy(req.preferredTier) ==> room.tier == req.preferredTier.value
    ensures var s := TimingOptions(rooms, stays, req, now)[k];
      s.kind == EarlyCheckin && s.priority == Low && s.roomId == Some(room.id)
      && s.confidence == RoomConfidence(room, stays, now) - 0.1
      && s.estimatedPrice == Some(EstimatedPrice(room.tier, None, req.checkIn, req.checkOut)
                                  + EstimatedPrice(room.tier, None, req.checkIn - 1, req.checkIn))
  {
    var early := EarlyRooms(rooms, stays, req);
    room := early[k];
    FirstTwoFree(rooms, stays, req.checkIn - 1, req.checkOut, req.preferredTier, room);
    EarlyOverAt(early, stays, req, now, k);
    var s := TimingOptions(rooms, stays, req, now)[k];
    assert s == EarlyOver(early, stays, req, now)[k];
    assert s == EarlyFor(room, stays, req, now);
  }

  /** A late check-out offer is for a room free for [check-in, check-out + 1),
      one of the first two such rooms of the preferred tier, placed after the
      early offers; it costs the request's estimate plus the estimate of the
      night after and carries the room's confidence less 0.1. */
  lemma LateSound(rooms: seq<Room>, stays: seq<Stay>, req: Request, now: int, k: nat) returns (room: Room)
    requires k < |LateRooms(rooms, stays, req)|
    ensures |LateRooms(rooms, stays, req)| <= 2
    ensures room in rooms && room.id !in OccupiedRooms(stays, req.checkIn, req.checkOut + 1)
    ensures StrTruthy(req.preferredTier) ==> room.tier == req.preferredTier.value
    ensures var s := TimingOptions(rooms, stays, req, now)[|EarlyRooms(rooms, stays, req)| + k];
      s.kind == LateCheckout && s.priority == Low && s.roomId == Some(room.id)
      && s.confidence == RoomConfidence(room, stays, now) - 0.1
      && s.estimatedPrice == Some(EstimatedPrice(room.tier, None, req.checkIn, req.checkOut)
                                  + EstimatedPrice(room.tier, None, req.checkOut, req.checkOut + 1))
  {
    var early := EarlyRooms(rooms, stays, req);
    var late := LateRooms(rooms, stays, req);
    room := late[k];
    FirstTwoFree(rooms, stays, req.checkIn, req.checkOut + 1, req.preferredTier, room);
    LateOverAt(late, stays, req, now, k);
    var eo, lo := EarlyOver(early, stays, req, now), LateOver(late, stays, req, now);
    assert TimingOptions(rooms, stays, req, now) == eo + lo;
    assert (eo + lo)[|early| + k] == lo[k] == LateFor(room, stays, req, now);
    LateForPrice(room, stays, req, now);
  }

  /** A late check-out offer's price: the stay plus the extra night. */
  lemma LateForPrice(room: Room, stays: seq<Stay>, req: Request, now: int)
    ensures LateFor(room, stays, req, now).estimatedPrice
      == Some(EstimatedPrice(room.tier, None, req.checkIn, req.checkOut) + EstimatedPrice(room.tier, None, req.checkOut, req.checkOut + 1))
  {
  }

  /** Every timing offer is one of the early or late ones above: at most four
      in all, LOW priority, confidence less 0.1. */
  lemma TimingSound(rooms: seq<Room>, stays: seq<Stay>, req: Request, now: int, k: nat)
    requires k < |TimingOptions(rooms, stays, req, now)|
    ensures |TimingOptions(rooms, stays, req, now)| <= 4
    ensures var s := TimingOptions(rooms, stays, req, now)[k];
      (s.kind == EarlyCheckin || s.kind == LateCheckout) && s.priority == Low
  {
    var early := EarlyOver(EarlyRooms(rooms, stays, req), stays, req, now);
    var late := LateOver(LateRooms(rooms, stays, req), stays, req, now);
    Sorting.TakePrefix(OpenRooms(rooms, stays, req.checkIn - 1, req.checkOut, req.preferredTier), 2);
    Sorting.TakePrefix(OpenRooms(rooms, stays, req.checkIn, req.checkOut + 1, req.preferredTier), 2);
    TimingIndex(early, late, TimingOptions(rooms, stays, req, now), k);
  }

  lemma TimingIndex(early: seq<Suggestion>, late: seq<Suggestion>, all: seq<Suggestion>, k: nat)
    requires all == early + late && k < |all|
    ensures all[k] == if k < |early| then early[k] else late[k - |early|]
  {
  }

  // ------------------------------------------------------- price optimisation

  /** The body of the price-optimisation loop for one earlier suggestion,
      given the client's historical average spend per night. */
  function SavingFor(s: Suggestion, req: Request, average: real): seq<Suggestion> {
    if RealTruthy(s.estimatedPrice) && s.kind == AvailableRoom then
      var diff := s.estimatedPrice.value - average;
      if diff < -(average * 0.3) then
        var perNight := RealAbs(diff);
        var nights := Nights(req);
        [Suggestion(PriceOptimization, Info, s.roomId, None, s.estimatedPrice, 0.8,
                    Some(TotalSavings(perNight, nights)), None, SavingsInfo(average, perNight, nights))]
      else []
    else []
  }

  /** `savings * nights`. */
  function TotalSavings(perNight: real, nights: int): real {
    perNight * (nights as real)
  }

  function SavingsOver(existing: seq<Suggestion>, req: Request, average: real): seq<Suggestion> {
    if existing == [] then []
    else SavingsOver(existing[..|existing| - 1], req, average) + SavingFor(existing[|existing| - 1], req, average)
  }

  /** `spending` is the client's average spend per night, None when the
      client is unknown or has no paid stay. */
  function PriceOptimizations(existing: seq<Suggestion>, req: Request, spending: Option<real>): seq<Suggestion> {
    if !IntTruthy(req.clientId) || spending.None? then []
    else SavingsOver(existing, req, spending.value)
  }

  /** `_find_price_optimizations`. */
  method FindPriceOptimizations(existing: seq<Suggestion>, req: Request, spending: Option<real>)
    returns (sols: seq<Suggestion>)
    ensures sols == PriceOptimizations(existing, req, spending)
  {
    sols := [];
    if !IntTruthy(req.clientId) || spending.None? {
      return;
    }
    var average := spending.value;
    var tolerance := average * 0.3;
    var i := 0;
    while i < |existing|
      invariant 0 <= i <= |existing|
      invariant sols == SavingsOver(existing[..i], req, average)
    {
      var s := existing[i];
      assert existing[..i + 1][..i] == existing[..i];
      assert SavingsOver(existing[..i + 1], req, average) == sols + SavingFor(s, req, average);
      if RealTruthy(s.estimatedPrice) && s.kind == AvailableRoom {
        var diff := s.estimatedPrice.value - average;
        if diff < -tolerance {
          var perNight := RealAbs(diff);
          var nights := Nights(req);
          var note := Suggestion(PriceOptimization, Info, s.roomId, None, s.estimatedPrice, 0.8,
                                 Some(TotalSavings(perNight, nights)), None, SavingsInfo(average, perNight, nights));
          assert SavingFor(s, req, average) == [note];
          sols := sols + [note];
        } else {
          assert SavingFor(s, req, average) == [];
        }
      } else {
        assert SavingFor(s, req, average) == [];
      }
      i := i + 1;
    }
    assert existing[..|existing|] == existing;
  }

  lemma {:induction false} SavingsOverFrom(existing: seq<Suggestion>, req: Request, average: real, k: nat)
    returns (source: Suggestion)
    requires k < |SavingsOver(existing, req, average)|
    ensures source in existing && SavingFor(source, req, average) == [SavingsOver(existing, req, average)[k]]
  {
    var p := existing[..|existing| - 1];
    if k < |SavingsOver(p, req, average)| {
      source := SavingsOverFrom(p, req, average, k);
    } else {
      source := existing[|existing| - 1];
    }
  }

  /** A saving note needs a client with a spending history and annotates an
      AVAILABLE_ROOM suggestion with a truthy price more than 30% below the
      client's average; it keeps that suggestion's room and price, saves
      |price - average| per night over the requested nights and carries
      confidence 0.8. */
  lemma PriceOptimizationSound(existing: seq<Suggestion>, req: Request, spending: Option<real>, k: nat)
    returns (source: Suggestion)
    requires k < |PriceOptimizations(existing, req, spending)|
    ensures IntTruthy(req.clientId) && spending.Some?
    ensures source in existing && source.kind == AvailableRoom && RealTruthy(source.estimatedPrice)
    ensures source.estimatedPrice.value - spending.value < -(spending.value * 0.3)
    ensures var s := PriceOptimizations(existing, req, spending)[k];
      s.kind == PriceOptimization && s.priority == Info && s.confidence == 0.8
      && s.roomId == source.roomId && s.estimatedPrice == source.estimatedPrice
      && s.savings == Some(TotalSavings(RealAbs(source.estimatedPrice.value - spending.value), Nights(req)))
  {
    source := SavingsOverFrom(existing, req, spending.value, k);
  }

  /** `abs` on a real. */
  function RealAbs(x: real): (r: real)
    ensures r >= 0.0 && (r == x || r == -x)
  {
    if x < 0.0 then -x else x
  }

  // ----------------------------------------------------------------- ranking

  /** `priority_weights`. */
  function Weight(p: Level): int {
    match p
    case Critical => 5
    case High => 4
    case Medium => 3
    case Low => 2
    case Info => 1
  }

  /** `suggestion_score`: 2 × weight + confidence. */
  function Score(s: Suggestion): real {
    2.0 * (Weight(s.priority) as real) + s.confidence
  }

  predicate ScoreAhead(a: Suggestion, b: Suggestion) {
    Score(a) > Score(b)
  }

  lemma ScoreAheadIsStrictWeakOrder()
    ensures Sorting.StrictWeakOrder(ScoreAhead)
  {
  }

  /** `_rank_suggestions`: a stable sort by descending score. */
  function RankSuggestions(sols: seq<Suggestion>): seq<Suggestion> {
    Sorting.Sort(sols, ScoreAhead)
  }

  /** Suggestions with equal scores keep the order in which they were found. */
  lemma RankStable(sols: seq<Suggestion>, e: Suggestion)
    ensures Sorting.TiedWith(RankSuggestions(sols), e, ScoreAhead) == Sorting.TiedWith(sols, e, ScoreAhead)
  {
    ScoreAheadIsStrictWeakOrder();
    Sorting.SortStable(sols, e, ScoreAhead);
  }

  // --------------------------------------------------------------- top level

  predicate AnyAvailableRoom(sols: seq<Suggestion>) {
    exists i :: 0 <= i < |sols| && sols[i].kind == AvailableRoom
  }

  /** Upgrades, splits, timing options, and shifted dates when the request
      allows them. */
  function Alternatives(rooms: seq<Room>, stays: seq<Stay>, req: Request, now: int): seq<Suggestion> {
    (if req.flexibleDates then FlexibleAlternatives(rooms, stays, req, now) else [])
    + UpgradeOpportunities(rooms, stays, req, now)
    + SplitOptions(rooms, stays, req, now)
    + TimingOptions(rooms, stays, req, now)
  }

  /** The direct suggestions, followed by the alternatives only when none of
      them is an AVAILABLE_ROOM. */
  function Gathered(rooms: seq<Room>, stays: seq<Stay>, req: Request, now: int): seq<Suggestion> {
    var direct := DirectAvailability(rooms, stays, req, now);
    direct + (if AnyAvailableRoom(direct) then [] else Alternatives(rooms, stays, req, now))
  }

  function Analysis(rooms: seq<Room>, stays: seq<Stay>, req: Request, now: int, spending: Option<real>)
    : seq<Suggestion>
  {
    var gathered := Gathered(rooms, stays, req, now);
    Sorting.Take(RankSuggestions(gathered + PriceOptimizations(gathered, req, spending)), 10)
  }

  /** `analyze_availability`. */
  method AnalyzeAvailability(rooms: seq<Room>, stays: seq<Stay>, req: Request, now: int, spending: Option<real>)
    returns (result: seq<Suggestion>)
    ensures result == Analysis(rooms, stays, req, now, spending)
  {
    var suggestions := CheckDirectAvailability(rooms, stays, req, now);
    var direct := suggestions;
    if !AnyAvailableRoom(direct) {
      var alternatives: seq<Suggestion> := [];
      if req.flexibleDates {
        alternatives := FindFlexibleDateAlternatives(rooms, stays, req, now);
      }
      var upgrades := FindUpgradeOpportunities(rooms, stays, req, now);
      var splits := FindSplitStayOptions(rooms, stays, req, now);
      var timing := FindTimingOptimizations(rooms, stays, req, now);
      alternatives := alternatives + upgrades + splits + timing;
      assert alternatives == Alternatives(rooms, stays, req, now);
      suggestions := suggestions + alternatives;
    }
    assert suggestions == Gathered(rooms, stays, req, now);
    var notes := FindPriceOptimizations(suggestions, req, spending);
    var all := suggestions + notes;
    result := Sorting.Take(RankSuggestions(all), 10);
  }

  /** The result holds at most ten suggestions, all drawn from the gathered
      ones and their price notes, ordered by non-increasing score. */
  lemma AnalysisRanked(rooms: seq<Room>, stays: seq<Stay>, req: Request, now: int, spending: Option<real>)
    ensures var gathered := Gathered(rooms, stays, req, now);
      var r := Analysis(rooms, stays, req, now, spending);
      |r| <= 10
      && multiset(r) <= multiset(gathered + PriceOptimizations(gathered, req, spending))
      && (forall i, j :: 0 <= i < j < |r| ==> Score(r[i]) >= Score(r[j]))
  {
    var gathered := Gathered(rooms, stays, req, now);
    var all := gathered + PriceOptimizations(gathered, req, spending);
    var r := Analysis(rooms, stays, req, now, spending);
    ScoreAheadIsStrictWeakOrder();
    Sorting.SortedPrefix(all, ScoreAhead, 10);
    forall i, j | 0 <= i < j < |r| ensures Score(r[i]) >= Score(r[j]) {
      assert !ScoreAhead(r[j], r[i]);
    }
  }

  /** The analysis keeps ten suggestions, or all of them when there are
      fewer, and a suggestion cut by the cap never scores above one kept. */
  lemma AnalysisKeepsTheTop(rooms: seq<Room>, stays: seq<Stay>, req: Request, now: int, spending: Option<real>)
    ensures var gathered := Gathered(rooms, stays, req, now);
      var ranked := RankSuggestions(gathered + PriceOptimizations(gathered, req, spending));
      var r := Analysis(rooms, stays, req, now, spending);
      |r| == (if |ranked| < 10 then |ranked| else 10)
      && forall i, j :: 0 <= i < |r| <= j < |ranked| ==> Score(ranked[j]) <= Score(r[i])
  {
    var gathered := Gathered(rooms, stays, req, now);
    var all := gathered + PriceOptimizations(gathered, req, spending);
    var ranked := RankSuggestions(all);
    var r := Analysis(rooms, stays, req, now, spending);
    ScoreAheadIsStrictWeakOrder();
    Sorting.SortRanked(all, ScoreAhead);
    Sorting.TakePrefix(ranked, 10);
    forall i, j | 0 <= i < |r| <= j < |ranked| ensures Score(ranked[j]) <= Score(r[i]) {
      assert r[i] == ranked[i];
      assert !ScoreAhead(ranked[j], ranked[i]);
    }
  }

  lemma DirectKind(rooms: seq<Room>, stays: seq<Stay>, req: Request, now: int, x: Suggestion)
    requires x in DirectAvailability(rooms, stays, req, now)
    ensures x.kind == AvailableRoom
  {
    var direct := DirectAvailability(rooms, stays, req, now);
    var k :| 0 <= k < |direct| && direct[k] == x;
    var _ := DirectSound(rooms, stays, req, now, k);
  }

  lemma FlexibleKind(rooms: seq<Room>, stays: seq<Stay>, req: Request, now: int, x: Suggestion)
    requires x in FlexibleAlternatives(rooms, stays, req, now)
    ensures x.kind == AlternativeDates
  {
    var flexible := FlexibleAlternatives(rooms, stays, req, now);
    var k :| 0 <= k < |flexible| && flexible[k] == x;
    var _, _ := FlexibleSound(rooms, stays, req, now, k);
  }

  lemma UpgradeKind(rooms: seq<Room>, stays: seq<Stay>, req: Request, now: int, x: Suggestion)
    requires x in UpgradeOpportunities(rooms, stays, req, now)
    ensures x.kind == RoomUpgrade
  {
    var upgrades := UpgradeOpportunities(rooms, stays, req, now);
    var k :| 0 <= k < |upgrades| && upgrades[k] == x;
    var _, _, _ := UpgradeSound(rooms, stays, req, now, k);
  }

  lemma SplitKind(rooms: seq<Room>, stays: seq<Stay>, req: Request, now: int, x: Suggestion)
    requires x in SplitOptions(rooms, stays, req, now)
    ensures x.kind == SplitStay
  {
    var splits := SplitOptions(rooms, stays, req, now);
    var k :| 0 <= k < |splits| && splits[k] == x;
    var _, _ := SplitSound(rooms, stays, req, now, k);
  }

  lemma TimingKind(rooms: seq<Room>, stays: seq<Stay>, req: Request, now: int, x: Suggestion)
    requires x in TimingOptions(rooms, stays, req, now)
    ensures x.kind == EarlyCheckin || x.kind == LateCheckout
  {
    var timing := TimingOptions(rooms, stays, req, now);
    var k :| 0 <= k < |timing| && timing[k] == x;
    TimingSound(rooms, stays, req, now, k);
  }

  /** Every gathered suggestion is direct, or else an alternative produced
      because the direct search found no AVAILABLE_ROOM; shifted dates
      appear only when the request allows them. */
  lemma GatheredOrigin(rooms: seq<Room>, stays: seq<Stay>, req: Request, now: int, x: Suggestion)
    requires x in Gathered(rooms, stays, req, now)
    ensures x.kind == AvailableRoom
      || (!AnyAvailableRoom(DirectAvailability(rooms, stays, req, now)) && x.kind != PriceOptimization)
    ensures x.kind == AlternativeDates ==> req.flexibleDates
  {
    var direct := DirectAvailability(rooms, stays, req, now);
    if x in direct {
      DirectKind(rooms, stays, req, now, x);
    } else {
      var flexible := if req.flexibleDates then FlexibleAlternatives(rooms, stays, req, now) else [];
      var upgrades := UpgradeOpportunities(rooms, stays, req, now);
      var splits := SplitOptions(rooms, stays, req, now);
      var timing := TimingOptions(rooms, stays, req, now);
      assert !AnyAvailableRoom(direct) && x in Alternatives(rooms, stays, req, now);
      assert Alternatives(rooms, stays, req, now) == flexible + upgrades + splits + timing;
      if x in flexible {
        FlexibleKind(rooms, stays, req, now, x);
      } else if x in upgrades {
        UpgradeKind(rooms, stays, req, now, x);
      } else if x in splits {
        SplitKind(rooms, stays, req, now, x);
      } else {
        TimingKind(rooms, stays, req, now, x);
      }
    }
  }

  /** Every suggestion of the result is a gathered one or a price note on them. */
  lemma AnalysisFrom(rooms: seq<Room>, stays: seq<Stay>, req: Request, now: int, spending: Option<real>,
                     x: Suggestion)
    requires x in Analysis(rooms, stays, req, now, spending)
    ensures x in Gathered(rooms, stays, req, now)
      || x in PriceOptimizations(Gathered(rooms, stays, req, now), req, spending)
  {
    var gathered := Gathered(rooms, stays, req, now);
    var all := gathered + PriceOptimizations(gathered, req, spending);
    ScoreAheadIsStrictWeakOrder();
    Sorting.SortedPrefix(all, ScoreAhead, 10);
    assert x in multiset(Sorting.Take(Sorting.Sort(all, ScoreAhead), 10));
    assert x in multiset(all);
  }

  /** Price notes are PRICE_OPTIMIZATION suggestions. */
  lemma NoteKind(existing: seq<Suggestion>, req: Request, spending: Option<real>, x: Suggestion)
    requires x in PriceOptimizations(existing, req, spending)
    ensures x.kind == PriceOptimization
  {
    var notes := PriceOptimizations(existing, req, spending);
    var k :| 0 <= k < |notes| && notes[k] == x;
    var _ := PriceOptimizationSound(existing, req, spending, k);
  }

  /** Once the direct search finds a room, the result holds only direct
      rooms and price notes on them; and without `flexible_dates` it never
      proposes other dates. */
  lemma AlternativesOnlyAsFallback(rooms: seq<Room>, stays: seq<Stay>, req: Request, now: int, spending: Option<real>)
    ensures AnyAvailableRoom(DirectAvailability(rooms, stays, req, now)) ==>
      forall x :: x in Analysis(rooms, stays, req, now, spending) ==>
        x.kind == AvailableRoom || x.kind == PriceOptimization
    ensures !req.flexibleDates ==>
      forall x :: x in Analysis(rooms, stays, req, now, spending) ==> x.kind != AlternativeDates
  {
    forall x | x in Analysis(rooms, stays, req, now, spending)
      ensures x.kind == AvailableRoom || x.kind == PriceOptimization
              || !AnyAvailableRoom(DirectAvailability(rooms, stays, req, now))
      ensures x.kind == AlternativeDates ==> req.flexibleDates
    {
      AnalysisFrom(rooms, stays, req, now, spending, x);
      var gathered := Gathered(rooms, stays, req, now);
      if x in gathered {
        GatheredOrigin(rooms, stays, req, now, x);
      } else {
        NoteKind(gathered, req, spending, x);
      }
    }
  }
}
