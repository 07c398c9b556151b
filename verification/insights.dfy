/** The rules of app/routes/intelligence_routes.py that sit outside the two
    engines: the date checks of `suggest_availability`, the quick price and
    free-room list of `quick_availability_check`, the per-day availability of
    `optimize_pricing`, the preference counting of `client_insights` and the
    messages of `generate_business_insights`. Dates are day numbers; query
    results are given. */
module Insights {
  import opened Common
  import opened Ledger
  import Calendar
  import AvailabilityEngine

  // ----------------------------------------------- suggest_availability

  /** A date field of the request: absent or empty, not in YYYY-MM-DD, or a day. */
  datatype DateField = Missing | Malformed | Day(day: int)

  datatype RequestError = DatesRequired | BadDateFormat | CheckOutNotAfter | CheckInInPast

  /** The checks of `suggest_availability`, in their order: both dates
      present, both well formed, check-out after check-in, check-in not
      before today. None means the request goes on to the engine. */
  function ValidateSuggestRequest(checkIn: DateField, checkOut: DateField, today: int): (e: Option<RequestError>)
    ensures e.None? <==> checkIn.Day? && checkOut.Day? && today <= checkIn.day < checkOut.day
  {
    if checkIn.Missing? || checkOut.Missing? then Some(DatesRequired)
    else if checkIn.Malformed? || checkOut.Malformed? then Some(BadDateFormat)
    else if checkIn.day >= checkOut.day then Some(CheckOutNotAfter)
    else if checkIn.day < today then Some(CheckInInPast)
    else None
  }

  /** A missing date is reported before a malformed one, and a bad order
      before a date in the past. */
  lemma ValidationOrder(checkIn: DateField, checkOut: DateField, today: int)
    ensures checkIn.Missing? || checkOut.Missing? ==> ValidateSuggestRequest(checkIn, checkOut, today) == Some(DatesRequired)
    ensures checkIn.Day? && checkOut.Day? && checkIn.day >= checkOut.day ==>
      ValidateSuggestRequest(checkIn, checkOut, today) == Some(CheckOutNotAfter)
  {
  }

  // ----------------------------------------- quick_availability_check

  /** `base_prices.get(room.tier, 3000) * nights`: the engine's base rate,
      with no long-stay or seasonal step. */
  function QuickPrice(tier: string, nights: int): (p: real)
    ensures nights >= 0 ==> p >= 2000.0 * (nights as real)
  {
    AvailabilityEngine.BaseRate(tier) * (nights as real)
  }

  /** The quick price agrees with the engine's estimate for a stay of under
      seven nights starting outside the high season, when neither the
      long-stay discount nor the seasonal surcharge applies. */
  lemma QuickPriceAgreesWithEngine(tier: string, checkIn: int, checkOut: int)
    requires checkOut - checkIn < 7 && !AvailabilityEngine.HighSeason(Calendar.MonthOf(checkIn))
    ensures QuickPrice(tier, checkOut - checkIn) == AvailabilityEngine.EstimatedPrice(tier, None, checkIn, checkOut)
  {
  }

  datatype QuickRoom = QuickRoom(room: Room, estimatedPrice: real)

  /** `quick_availability_check`: every room no holding stay overlaps, in
      room order, with its quick price. The response's occupancy rate
      divides by the number of rooms, so with no rooms the route fails
      (None). */
  function QuickAvailabilityCheck(rooms: seq<Room>, stays: seq<Stay>, checkIn: int, checkOut: int): Option<seq<QuickRoom>> {
    if |rooms| == 0 then None
    else
      var free := AvailabilityEngine.OpenRooms(rooms, stays, checkIn, checkOut, None);
      AvailabilityEngine.OpenRoomsMembers(rooms, stays, checkIn, checkOut, None);
      Some(seq(|free|, i requires 0 <= i < |free| => QuickRoom(free[i], QuickPrice(free[i].tier, checkOut - checkIn))))
  }

  /** The check fails exactly when there are no rooms; otherwise the rooms
      listed are exactly the rooms with no holding stay overlapping the
      request, each priced at base rate times nights. */
  lemma QuickCheckRooms(rooms: seq<Room>, stays: seq<Stay>, checkIn: int, checkOut: int)
    ensures QuickAvailabilityCheck(rooms, stays, checkIn, checkOut).None? <==> |rooms| == 0
    ensures var q := QuickAvailabilityCheck(rooms, stays, checkIn, checkOut);
      q.Some? ==> var r := q.value;
      (forall x :: (exists k :: 0 <= k < |r| && r[k].room == x) <==>
        x in rooms && forall i :: 0 <= i < |stays| && stays[i].roomId == x.id ==> !AvailabilityEngine.Holds(stays[i], checkIn, checkOut)) &&
      (forall k :: 0 <= k < |r| ==> r[k].estimatedPrice == AvailabilityEngine.BaseRate(r[k].room.tier) * ((checkOut - checkIn) as real))
  {
    if |rooms| > 0 {
      var free := AvailabilityEngine.OpenRooms(rooms, stays, checkIn, checkOut, None);
      var r := QuickAvailabilityCheck(rooms, stays, checkIn, checkOut).value;
      AvailabilityEngine.OpenRoomsMembers(rooms, stays, checkIn, checkOut, None);
      AvailabilityEngine.OccupiedRoomsMembers(stays, checkIn, checkOut);
      forall x ensures (exists k :: 0 <= k < |r| && r[k].room == x) <==> x in free {
        if x in free {
          var k :| 0 <= k < |free| && free[k] == x;
          assert r[k].room == x;
        }
      }
    }
  }

  // ------------------------------------------------------ optimize_pricing

  /** The number of days `optimize_pricing` covers. */
  const PricingDays := 30

  /** Day `d` is free in room `roomId` unless a holding stay in the room has
      begun by `d` and not checked out by then. */
  predicate DayAvailable(stays: seq<Stay>, roomId: int, d: int) {
    forall i :: 0 <= i < |stays| ==>
      !(stays[i].roomId == roomId && HoldsRoom(stays[i].status) && stays[i].checkIn <= d
        && (stays[i].checkOut.None? || stays[i].checkOut.value > d))
  }

  /** The availability flags of `optimize_pricing`, one per day from today. */
  method PricingAvailability(stays: seq<Stay>, roomId: int, today: int) returns (available: seq<bool>)
    ensures |available| == PricingDays
    ensures forall i :: 0 <= i < PricingDays ==> (available[i] <==> DayAvailable(stays, roomId, today + i))
  {
    available := [];
    for i := 0 to PricingDays
      invariant |available| == i
      invariant forall j :: 0 <= j < i ==> (available[j] <==> DayAvailable(stays, roomId, today + j))
    {
      var d := today + i;
      var blocked := false;
      for k := 0 to |stays|
        invariant blocked <==> !DayAvailable(stays[..k], roomId, d)
      {
        assert forall j :: 0 <= j < k ==> stays[..k + 1][j] == stays[..k][j];
        var st := stays[k];
        if st.roomId == roomId && HoldsRoom(st.status) && st.checkIn <= d && (st.checkOut.None? || st.checkOut.value > d) {
          blocked := true;
        }
      }
      assert stays[..|stays|] == stays;
      available := available + [!blocked];
    }
  }

  /** A day is available exactly when the room is free for the single night
      [d, d + 1) in the engine's sense. */
  lemma DayAvailableIsOneNight(stays: seq<Stay>, roomId: int, d: int)
    ensures DayAvailable(stays, roomId, d) <==> roomId !in AvailabilityEngine.OccupiedRooms(stays, d, d + 1)
  {
    AvailabilityEngine.OccupiedRoomsMembers(stays, d, d + 1);
  }

  // ------------------------------------------------------ client_insights

  /** First index of a maximum of `s`: Python's `max` keeps the first of equal keys. */
  function ArgMax(s: seq<real>): (i: nat)
    requires |s| > 0
    ensures i < |s|
    ensures forall j :: 0 <= j < |s| ==> s[j] <= s[i]
    ensures forall j :: 0 <= j < i ==> s[j] < s[i]
  {
    if |s| == 1 then 0
    else
      var p := s[..|s| - 1];
      var k := ArgMax(p);
      assert forall j :: 0 <= j < |p| ==> p[j] == s[j];
      if s[|s| - 1] > s[k] then |s| - 1 else k
  }

  /** The number of times `k` occurs in `keys`. */
  function Occurrences(keys: seq<string>, k: string): (n: nat)
    ensures n > 0 <==> k in keys
  {
    if keys == [] then 0
    else Occurrences(keys[..|keys| - 1], k) + (if keys[|keys| - 1] == k then 1 else 0)
  }

  /** The distinct keys in order of first appearance: a dict's iteration order. */
  function FirstAppearances(keys: seq<string>): (r: seq<string>)
    ensures forall k :: k in r <==> k in keys
    ensures forall i, j :: 0 <= i < j < |r| ==> r[i] != r[j]
  {
    if keys == [] then []
    else
      var p := keys[..|keys| - 1];
      var last := keys[|keys| - 1];
      assert keys == p + [last];
      FirstAppearances(p) + (if last in p then [] else [last])
  }

  /** `max(counts.items(), key=count)[0] if counts else None`. */
  function MostFrequent(keys: seq<string>): (r: Option<string>)
    ensures r.None? <==> keys == []
  {
    var order := FirstAppearances(keys);
    if order == [] then None
    else
      assert keys[0] in order;
      Some(order[ArgMax(seq(|order|, i requires 0 <= i < |order| => Occurrences(keys, order[i]) as real))])
  }

  /** The preferred value occurs at least as often as any other, and among
      equally frequent values it is the one seen first. */
  lemma MostFrequentIsMode(keys: seq<string>)
    ensures var r := MostFrequent(keys);
      r.Some? ==> (r.value in keys &&
        (forall k :: k in keys ==> Occurrences(keys, k) <= Occurrences(keys, r.value)) &&
        (forall i :: 0 <= i < |FirstAppearances(keys)| && FirstAppearances(keys)[i] == r.value ==>
           forall j :: 0 <= j < i ==> Occurrences(keys, FirstAppearances(keys)[j]) < Occurrences(keys, r.value)))
  {
    var order := FirstAppearances(keys);
    if order != [] {
      var s := seq(|order|, i requires 0 <= i < |order| => Occurrences(keys, order[i]) as real);
      var m := ArgMax(s);
      forall k | k in keys ensures Occurrences(keys, k) <= Occurrences(keys, order[m]) {
        var j :| 0 <= j < |order| && order[j] == k;
        assert s[j] <= s[m];
      }
      forall i | 0 <= i < |order| && order[i] == order[m]
        ensures forall j :: 0 <= j < i ==> Occurrences(keys, order[j]) < Occurrences(keys, order[m])
      {
        assert i == m;
        forall j | 0 <= j < i ensures Occurrences(keys, order[j]) < Occurrences(keys, order[m]) {
          assert s[j] < s[m];
        }
      }
    }
  }

  /** Appending a key counts it once more and lists it if it is new. */
  lemma AppendKey(p: seq<string>, x: string)
    ensures FirstAppearances(p + [x]) == FirstAppearances(p) + (if x in p then [] else [x])
    ensures forall k :: Occurrences(p + [x], k) == Occurrences(p, k) + (if x == k then 1 else 0)
    ensures forall k :: k in p + [x] <==> k in p || k == x
  {
    assert (p + [x])[..|p|] == p;
  }

  /** The dict the counting loop builds over `keys`. */
  function Counts(keys: seq<string>): map<string, nat> {
    if keys == [] then map[]
    else
      var c := Counts(keys[..|keys| - 1]);
      var k := keys[|keys| - 1];
      c[k := (if k in c then c[k] else 0) + 1]
  }

  /** The dict holds exactly the keys seen, each with its number of occurrences. */
  lemma {:induction false} CountsAreOccurrences(keys: seq<string>)
    ensures forall k :: k in Counts(keys) <==> k in keys
    ensures forall k :: k in Counts(keys) ==> Counts(keys)[k] == Occurrences(keys, k)
  {
    if keys != [] {
      var p := keys[..|keys| - 1];
      CountsAreOccurrences(p);
      AppendKey(p, keys[|keys| - 1]);
      assert keys == p + [keys[|keys| - 1]];
    }
  }

  /** `tier_preferences[k] = tier_preferences.get(k, 0) + 1` over `keys`. */
  method CountKeys(keys: seq<string>) returns (counts: map<string, nat>, order: seq<string>)
    ensures order == FirstAppearances(keys)
    ensures forall k :: k in counts <==> k in keys
    ensures forall k :: k in counts ==> counts[k] == Occurrences(keys, k)
  {
    counts := map[];
    order := [];
    for i := 0 to |keys|
      invariant order == FirstAppearances(keys[..i])
      invariant counts == Counts(keys[..i])
    {
      var k := keys[i];
      assert keys[..i + 1] == keys[..i] + [k];
      CountsAreOccurrences(keys[..i]);
      assert k in counts <==> k in keys[..i];
      assert FirstAppearances(keys[..i] + [k]) == FirstAppearances(keys[..i]) + (if k in keys[..i] then [] else [k]);
      if k !in counts {
        order := order + [k];
      }
      counts := counts[k := (if k in counts then counts[k] else 0) + 1];
    }
    assert keys[..|keys|] == keys;
    CountsAreOccurrences(keys);
  }

  /** One of the client's recent stays, as `client_insights` reads it. */
  datatype StayRow = StayRow(roomTier: Option<string>, channel: string, checkIn: int, checkOut: Option<int>)

  /** The tiers of the stays that have a room. */
  function TierKeys(recent: seq<StayRow>): seq<string> {
    if recent == [] then []
    else
      var st := recent[|recent| - 1];
      TierKeys(recent[..|recent| - 1]) + (if st.roomTier.Some? then [st.roomTier.value] else [])
  }

  function ChannelKeys(recent: seq<StayRow>): (r: seq<string>)
    ensures |r| == |recent|
  {
    if recent == [] then [] else ChannelKeys(recent[..|recent| - 1]) + [recent[|recent| - 1].channel]
  }

  /** The lengths of the stays that have a check-out. */
  function Durations(recent: seq<StayRow>): seq<int> {
    if recent == [] then []
    else
      var st := recent[|recent| - 1];
      Durations(recent[..|recent| - 1]) + (if st.checkOut.Some? then [st.checkOut.value - st.checkIn] else [])
  }

  function Sum(xs: seq<int>): int {
    if xs == [] then 0 else Sum(xs[..|xs| - 1]) + xs[|xs| - 1]
  }

  /** `sum(durations) / len(durations) if durations else 0`. */
  function Average(xs: seq<int>): real {
    if xs == [] then 0.0 else (Sum(xs) as real) / (|xs| as real)
  }

  datatype Recommendation = PrefersTier(tier: string) | LongStays | Vip

  datatype ClientInsight = ClientInsight(avgPerStay: real, preferredTier: Option<string>,
                                         preferredChannel: Option<string>, avgDuration: real,
                                         recommendations: seq<Recommendation>)

  /** The recommendations of `client_insights`: the preferred tier when it is
      a non-empty name, long stays above five nights on average, VIP above
      50000 spent, in that order. */
  function Recommendations(preferredTier: Option<string>, avgDuration: real, totalSpent: real): (r: seq<Recommendation>)
    ensures LongStays in r <==> avgDuration > 5.0
    ensures Vip in r <==> totalSpent > 50000.0
    ensures (exists t :: PrefersTier(t) in r) <==> StrTruthy(preferredTier)
  {
    (if StrTruthy(preferredTier) then [PrefersTier(preferredTier.value)] else [])
    + (if avgDuration > 5.0 then [LongStays] else [])
    + (if totalSpent > 50000.0 then [Vip] else [])
  }

  /** `client_insights` over the client's ten most recent stays, its visit
      count and its total spent. */
  method ClientInsights(recent: seq<StayRow>, totalStays: nat, totalSpent: real) returns (r: ClientInsight)
    ensures r.avgPerStay == (if totalStays > 0 then totalSpent / (totalStays as real) else 0.0)
    ensures r.preferredTier == MostFrequent(TierKeys(recent))
    ensures r.preferredChannel == MostFrequent(ChannelKeys(recent))
    ensures r.avgDuration == Average(Durations(recent))
    ensures r.recommendations == Recommendations(r.preferredTier, r.avgDuration, totalSpent)
  {
    var tiers: seq<string> := [];
    var channels: seq<string> := [];
    var durations: seq<int> := [];
    for i := 0 to |recent|
      invariant tiers == TierKeys(recent[..i]) && channels == ChannelKeys(recent[..i])
      invariant durations == Durations(recent[..i])
    {
      assert recent[..i + 1][..i] == recent[..i];
      var st := recent[i];
      if st.roomTier.Some? {
        tiers := tiers + [st.roomTier.value];
      }
      channels := channels + [st.channel];
      if st.checkOut.Some? {
        durations := durations + [st.checkOut.value - st.checkIn];
      }
    }
    assert recent[..|recent|] == recent;
    var preferredTier := MostFrequent(tiers);
    var preferredChannel := MostFrequent(channels);
    var avgPerStay := if totalStays > 0 then totalSpent / (totalStays as real) else 0.0;
    var avgDuration := Average(durations);
    r := ClientInsight(avgPerStay, preferredTier, preferredChannel, avgDuration,
                       Recommendations(preferredTier, avgDuration, totalSpent));
  }

  // ---------------------------------------------- generate_business_insights

  /** A row of `analyze_seasonal_patterns`: bookings of a calendar month. */
  datatype MonthBookings = MonthBookings(month: int, bookings: nat)

  /** A row of `get_room_tier_demand`. */
  datatype TierDemand = TierDemand(tier: string, bookings: nat, avgPayment: real)

  datatype Insight = HighOccupancy | LowOccupancy | HighSeasonDetected | LowSeasonDetected
                   | TopDemandTier(tier: string) | MostProfitableTier(tier: string)

  /** `seasonal_patterns.get(month, {}).get('bookings', 0)`. */
  function BookingsIn(seasonal: seq<MonthBookings>, month: int): nat {
    if seasonal == [] then 0
    else if seasonal[0].month == month then seasonal[0].bookings
    else BookingsIn(seasonal[1..], month)
  }

  function TotalBookings(seasonal: seq<MonthBookings>): nat {
    if seasonal == [] then 0 else TotalBookings(seasonal[..|seasonal| - 1]) + seasonal[|seasonal| - 1].bookings
  }

  function DemandBookings(demand: seq<TierDemand>): (s: seq<real>)
    ensures |s| == |demand|
  {
    seq(|demand|, i requires 0 <= i < |demand| => demand[i].bookings as real)
  }

  /** `avg_payment * bookings` per tier. */
  function Profitability(demand: seq<TierDemand>): (s: seq<real>)
    ensures |s| == |demand|
  {
    seq(|demand|, i requires 0 <= i < |demand| => demand[i].avgPayment * (demand[i].bookings as real))
  }

  /** The occupancy message: above 80 % or below 30 % of the rooms taken. */
  function OccupancyInsights(activeStays: nat, totalRooms: nat): seq<Insight>
    requires totalRooms > 0
  {
    var occupancyRate := (activeStays as real) / (totalRooms as real) * 100.0;
    if occupancyRate > 80.0 then [HighOccupancy]
    else if occupancyRate < 30.0 then [LowOccupancy] else []
  }

  /** The season message: this month's bookings against 1.2 and 0.8 times
      the average over the months on record; none without records. */
  function SeasonInsights(seasonal: seq<MonthBookings>, currentMonth: int): seq<Insight> {
    if seasonal == [] then []
    else
      SeasonMessage(BookingsIn(seasonal, currentMonth) as real,
                    (TotalBookings(seasonal) as real) / (|seasonal| as real))
  }

  function SeasonMessage(current: real, avgBookings: real): seq<Insight> {
    if current > avgBookings * 1.2 then [HighSeasonDetected]
    else if current < avgBookings * 0.8 then [LowSeasonDetected] else []
  }

  /** The tier messages: the tier with most bookings and the one with most
      revenue, each the first of its kind in query order. */
  function TierInsights(demand: seq<TierDemand>): seq<Insight> {
    if demand == [] then []
    else [TopDemandTier(demand[ArgMax(DemandBookings(demand))].tier),
          MostProfitableTier(demand[ArgMax(Profitability(demand))].tier)]
  }

  /** `generate_business_insights`: None when there are no rooms (the
      occupancy division raises); otherwise the occupancy, season and tier
      messages in that order. */
  function GenerateBusinessInsights(seasonal: seq<MonthBookings>, demand: seq<TierDemand>,
                                    activeStays: nat, totalRooms: nat, currentMonth: int): (r: Option<seq<Insight>>)
    ensures r.None? <==> totalRooms == 0
  {
    if totalRooms == 0 then None
    else Some(OccupancyInsights(activeStays, totalRooms) + SeasonInsights(seasonal, currentMonth) + TierInsights(demand))
  }

  /** `x / t * 100` against a whole percentage, without the division. */
  lemma PercentOf(x: nat, t: nat, k: nat)
    requires t > 0
    ensures (x as real) / (t as real) * 100.0 > k as real <==> x * 100 > t * k
    ensures (x as real) / (t as real) * 100.0 < k as real <==> x * 100 < t * k
  {
    var q := (x as real) / (t as real);
    assert q * (t as real) == x as real;
    assert (t * k) as real == (k as real) * (t as real);
  }

  /** `c > (s / n) * f` without the division. */
  lemma ScaledAverage(c: real, s: real, n: real, f: real)
    requires n > 0.0
    ensures c > s / n * f <==> c * n > s * f
    ensures c < s / n * f <==> c * n < s * f
  {
    var q := s / n;
    assert q * n == s;
  }

  /** The occupancy messages in whole numbers: above 80 or below 30 active
      stays per 100 rooms. */
  lemma OccupancyRule(activeStays: nat, totalRooms: nat)
    requires totalRooms > 0
    ensures HighOccupancy in OccupancyInsights(activeStays, totalRooms) <==> activeStays * 100 > totalRooms * 80
    ensures LowOccupancy in OccupancyInsights(activeStays, totalRooms) <==> activeStays * 100 < totalRooms * 30
  {
    PercentOf(activeStays, totalRooms, 80);
    PercentOf(activeStays, totalRooms, 30);
  }

  lemma SeasonMessageRule(current: real, total: real, n: real)
    requires n > 0.0
    ensures HighSeasonDetected in SeasonMessage(current, total / n) <==> current * n > total * 1.2
    ensures LowSeasonDetected in SeasonMessage(current, total / n) <==> !(current * n > total * 1.2) && current * n < total * 0.8
  {
    ScaledAverage(current, total, n, 1.2);
    ScaledAverage(current, total, n, 0.8);
  }

  /** This month's bookings times the number of months on record. */
  function Scaled(seasonal: seq<MonthBookings>, currentMonth: int): real {
    (BookingsIn(seasonal, currentMonth) as real) * (|seasonal| as real)
  }

  /** The season messages without the division: this month's bookings times
      the number of months on record, against 1.2 and 0.8 times the total. */
  lemma SeasonRule(seasonal: seq<MonthBookings>, currentMonth: int)
    ensures seasonal == [] ==> SeasonInsights(seasonal, currentMonth) == []
    ensures seasonal != [] ==> (HighSeasonDetected in SeasonInsights(seasonal, currentMonth) <==>
      Scaled(seasonal, currentMonth) > (TotalBookings(seasonal) as real) * 1.2)
    ensures seasonal != [] ==> (LowSeasonDetected in SeasonInsights(seasonal, currentMonth) <==>
      !(Scaled(seasonal, currentMonth) > (TotalBookings(seasonal) as real) * 1.2) &&
      Scaled(seasonal, currentMonth) < (TotalBookings(seasonal) as real) * 0.8)
  {
    if seasonal != [] {
      var c := BookingsIn(seasonal, currentMonth) as real;
      var t := TotalBookings(seasonal) as real;
      var n := |seasonal| as real;
      assert SeasonInsights(seasonal, currentMonth) == SeasonMessage(c, t / n);
      assert Scaled(seasonal, currentMonth) == c * n;
      SeasonMessageRule(c, t, n);
    }
  }

  /** With demand data, the top-demand tier has bookings no tier exceeds and
      the most profitable tier revenue no tier exceeds; without it, no tier
      is named. */
  lemma TierRule(demand: seq<TierDemand>)
    ensures demand != [] ==> exists i :: (0 <= i < |demand| && TopDemandTier(demand[i].tier) in TierInsights(demand) &&
      forall j :: 0 <= j < |demand| ==> demand[j].bookings <= demand[i].bookings)
    ensures demand != [] ==> exists i :: (0 <= i < |demand| && MostProfitableTier(demand[i].tier) in TierInsights(demand) &&
      forall j :: 0 <= j < |demand| ==> Profitability(demand)[j] <= Profitability(demand)[i])
    ensures demand == [] ==> TierInsights(demand) == []
  {
    if demand != [] {
      var b := DemandBookings(demand);
      var i := ArgMax(b);
      assert TierInsights(demand)[0] == TopDemandTier(demand[i].tier);
      forall j | 0 <= j < |demand| ensures demand[j].bookings <= demand[i].bookings {
        assert b[j] <= b[i];
      }
    }
  }

  /** Each part contributes only its own kind of message, so the occupancy,
      season and tier rules above hold of the whole list. */
  lemma BusinessInsightParts(seasonal: seq<MonthBookings>, demand: seq<TierDemand>,
                             activeStays: nat, totalRooms: nat, currentMonth: int, m: Insight)
    requires totalRooms > 0
    ensures var r := GenerateBusinessInsights(seasonal, demand, activeStays, totalRooms, currentMonth).value;
      (m.HighOccupancy? || m.LowOccupancy? ==> (m in r <==> m in OccupancyInsights(activeStays, totalRooms))) &&
      (m.HighSeasonDetected? || m.LowSeasonDetected? ==> (m in r <==> m in SeasonInsights(seasonal, currentMonth))) &&
      (m.TopDemandTier? || m.MostProfitableTier? ==> (m in r <==> m in TierInsights(demand)))
  {
  }
}
