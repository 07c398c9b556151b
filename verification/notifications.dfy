/** The rule-based part of app/intelligence_notifications.py: the priority
    weights, the ordering and cap of the feed, the dashboard buckets, and
    the threshold rules of the low-stock, excessive-usage, occupancy and
    revenue analyzers. The analyzers' queries are replaced by their results,
    and times are numbers. */
module Notifications {
  import opened Common
  import Supplies
  import Sorting

  datatype Kind = BusinessOpportunity | OperationalAlert | RevenueOptimization | InventoryWarning
                | ClientInsight | MarketTrend | PerformanceAlert

  datatype Priority = Critical | High | Medium | Low | Info

  /** An `IntelligentNotification`; `createdAt` is None when the analyzer
      left it unset, which every analyzer does. */
  datatype Notification = Notification(id: string, kind: Kind, priority: Priority, createdAt: Option<int>)

  /** `_priority_weight`. */
  function PriorityWeight(p: Priority): (w: int)
    ensures 1 <= w <= 5
    ensures w == 5 <==> p == Critical
    ensures w == 1 <==> p == Info
  {
    match p
    case Critical => 5
    case High => 4
    case Medium => 3
    case Low => 2
    case Info => 1
  }

  /** The weights follow the order of the priorities, one weight each. */
  lemma WeightsOrdered()
    ensures PriorityWeight(Critical) > PriorityWeight(High) > PriorityWeight(Medium)
            > PriorityWeight(Low) > PriorityWeight(Info)
    ensures forall p, q :: PriorityWeight(p) == PriorityWeight(q) ==> p == q
  {
  }

  // ---------------------------------------------------------------- the feed

  /** A notification with the time its sort key was computed with. */
  datatype Keyed = Keyed(note: Notification, at: int)

  /** The keys `sort` computes, one per notification in list order: a set
      creation time is used as it is, an unset one reads the clock, and
      `clock[i]` is the reading taken for the `i`-th notification. */
  function Stamped(all: seq<Notification>, clock: seq<int>): (r: seq<Keyed>)
    requires |clock| == |all|
    ensures |r| == |all|
    ensures forall i :: 0 <= i < |r| ==> r[i].note == all[i]
    ensures forall i :: 0 <= i < |r| && all[i].createdAt.None? ==> r[i].at == clock[i]
    ensures forall i :: 0 <= i < |r| && all[i].createdAt.Some? ==> r[i].at == all[i].createdAt.value
  {
    seq(|all|, i requires 0 <= i < |all| =>
      Keyed(all[i], if all[i].createdAt.Some? then all[i].createdAt.value else clock[i]))
  }

  /** The notifications behind keyed entries, in the same order. */
  function Notes(s: seq<Keyed>): (r: seq<Notification>)
    ensures |r| == |s| && forall i :: 0 <= i < |s| ==> r[i] == s[i].note
  {
    seq(|s|, i requires 0 <= i < |s| => s[i].note)
  }

  /** `reverse=True` on the key (weight, created): `a` sorts strictly before `b`. */
  predicate Ahead(a: Keyed, b: Keyed) {
    PriorityWeight(a.note.priority) > PriorityWeight(b.note.priority)
    || (PriorityWeight(a.note.priority) == PriorityWeight(b.note.priority) && a.at > b.at)
  }

  lemma AheadIsStrictWeakOrder()
    ensures Sorting.StrictWeakOrder(Ahead)
  {
  }

  /** What the analyzers produced, in analyzer order; None for an analyzer
      that raised, whose notifications are lost while the others go on. */
  function Gathered(batches: seq<Option<seq<Notification>>>): seq<Notification> {
    if batches == [] then []
    else
      Gathered(batches[..|batches| - 1])
      + (match batches[|batches| - 1] case Some(ns) => ns case None => [])
  }

  /** The feed holds exactly the notifications of the analyzers that did not raise. */
  lemma {:induction false} GatheredMembers(batches: seq<Option<seq<Notification>>>)
    ensures forall n :: n in Gathered(batches) <==>
      exists i :: 0 <= i < |batches| && batches[i].Some? && n in batches[i].value
  {
    if batches != [] {
      var p := batches[..|batches| - 1];
      GatheredMembers(p);
      forall n | n in Gathered(batches)
        ensures exists i :: 0 <= i < |batches| && batches[i].Some? && n in batches[i].value
      {
        if n in Gathered(p) {
          var i :| 0 <= i < |p| && p[i].Some? && n in p[i].value;
          assert batches[i] == p[i];
        }
      }
      forall n | exists i :: 0 <= i < |batches| && batches[i].Some? && n in batches[i].value
        ensures n in Gathered(batches)
      {
        var i :| 0 <= i < |batches| && batches[i].Some? && n in batches[i].value;
        if i < |p| {
          assert p[i] == batches[i];
        }
      }
    }
  }

  /** The cap of the feed. */
  const FeedLimit := 20

  /** The ranked feed before the cap, from the gathered notifications and
      the clock readings taken for them. */
  function SortedFeed(batches: seq<Option<seq<Notification>>>, clock: seq<int>): seq<Keyed>
    requires |clock| == |Gathered(batches)|
  {
    Sorting.Sort(Stamped(Gathered(batches), clock), Ahead)
  }

  /** `generate_notifications`: every analyzer's output is collected, the
      list is sorted (stably) by descending weight and creation time, and the
      first twenty are returned. `clock` holds the readings of the current
      time taken while the keys are computed, one per gathered notification. */
  method GenerateNotifications(batches: seq<Option<seq<Notification>>>, clock: seq<int>) returns (feed: seq<Notification>)
    requires |clock| == |Gathered(batches)|
    ensures feed == Notes(Sorting.Take(SortedFeed(batches, clock), FeedLimit))
  {
    var all := [];
    for i := 0 to |batches|
      invariant all == Gathered(batches[..i])
    {
      assert batches[..i + 1][..i] == batches[..i];
      if batches[i].Some? {
        all := all + batches[i].value;
      }
    }
    assert batches[..|batches|] == batches;
    var sorted := Sorting.Sort(Stamped(all, clock), Ahead);
    feed := Notes(Sorting.Take(sorted, FeedLimit));
  }

  /** The feed has at most twenty notifications, twenty whenever the
      analyzers produced that many, in descending order of their keys. */
  lemma FeedRanked(batches: seq<Option<seq<Notification>>>, clock: seq<int>)
    requires |clock| == |Gathered(batches)|
    ensures var kept := Sorting.Take(SortedFeed(batches, clock), FeedLimit);
      |kept| <= FeedLimit && (|Gathered(batches)| >= FeedLimit ==> |kept| == FeedLimit) &&
      Sorting.Ranked(kept, Ahead)
  {
    AheadIsStrictWeakOrder();
    Sorting.SortedPrefix(Stamped(Gathered(batches), clock), Ahead, FeedLimit);
    Sorting.TakePrefix(SortedFeed(batches, clock), FeedLimit);
  }

  /** Every notification of the feed comes from an analyzer that did not raise. */
  lemma FeedFromAnalyzers(batches: seq<Option<seq<Notification>>>, clock: seq<int>)
    requires |clock| == |Gathered(batches)|
    ensures forall n :: n in Notes(Sorting.Take(SortedFeed(batches, clock), FeedLimit)) ==>
      exists i :: 0 <= i < |batches| && batches[i].Some? && n in batches[i].value
  {
    KeptWereGathered(Gathered(batches), clock);
    GatheredMembers(batches);
  }

  lemma KeptWereGathered(all: seq<Notification>, clock: seq<int>)
    requires |clock| == |all|
    ensures forall n :: n in Notes(Sorting.Take(Sorting.Sort(Stamped(all, clock), Ahead), FeedLimit)) ==> n in all
  {
    var stamped := Stamped(all, clock);
    var sorted := Sorting.Sort(stamped, Ahead);
    var kept := Sorting.Take(sorted, FeedLimit);
    Sorting.TakePrefix(sorted, FeedLimit);
    forall n | n in Notes(kept) ensures n in all {
      var k :| 0 <= k < |kept| && Notes(kept)[k] == n;
      assert kept[k] in multiset(stamped) by {
        assert kept[k] in sorted;
      }
      var j :| 0 <= j < |stamped| && stamped[j] == kept[k];
      assert n == all[j];
    }
  }

  /** A notification cut by the cap never outranks one that was kept. */
  lemma FeedKeepsTheTop(batches: seq<Option<seq<Notification>>>, clock: seq<int>)
    requires |clock| == |Gathered(batches)|
    ensures var sorted := SortedFeed(batches, clock);
      var kept := Sorting.Take(sorted, FeedLimit);
      forall i, j :: 0 <= i < |kept| <= j < |sorted| ==> !Ahead(sorted[j], kept[i])
  {
    var sorted := SortedFeed(batches, clock);
    AheadIsStrictWeakOrder();
    Sorting.SortRanked(Stamped(Gathered(batches), clock), Ahead);
    Sorting.TakePrefix(sorted, FeedLimit);
    var kept := Sorting.Take(sorted, FeedLimit);
    forall i, j | 0 <= i < |kept| <= j < |sorted| ensures !Ahead(sorted[j], kept[i]) {
      assert kept[i] == sorted[i];
    }
  }

  // ------------------------------------------------------------ dashboard

  datatype Bucket = CriticalBucket | Opportunities | OperationalAlerts | Insights

  /** `get_notifications_for_dashboard`'s bucket: a critical notification
      goes to critical whatever its type; otherwise the type decides. */
  function BucketOf(n: Notification): (b: Bucket)
    ensures b == CriticalBucket <==> n.priority == Critical
    ensures b == Opportunities <==>
      n.priority != Critical && (n.kind == BusinessOpportunity || n.kind == RevenueOptimization)
    ensures b == OperationalAlerts <==> n.priority != Critical && n.kind == OperationalAlert
  {
    if n.priority == Critical then CriticalBucket
    else if n.kind == BusinessOpportunity || n.kind == RevenueOptimization then Opportunities
    else if n.kind == OperationalAlert then OperationalAlerts
    else Insights
  }

  /** The notifications of one bucket, in feed order. */
  function InBucket(feed: seq<Notification>, b: Bucket): (r: seq<Notification>)
    ensures |r| <= |feed|
  {
    if feed == [] then []
    else InBucket(feed[..|feed| - 1], b) + (if BucketOf(feed[|feed| - 1]) == b then [feed[|feed| - 1]] else [])
  }

  datatype Dashboard = Dashboard(critical: seq<Notification>, opportunities: seq<Notification>,
                                 operational: seq<Notification>, insights: seq<Notification>,
                                 totalCount: nat, criticalCount: nat, opportunitiesCount: nat)

  /** `get_notifications_for_dashboard` over the generated feed. */
  method GetNotificationsForDashboard(feed: seq<Notification>) returns (d: Dashboard)
    ensures d.critical == InBucket(feed, CriticalBucket) && d.opportunities == InBucket(feed, Opportunities)
    ensures d.operational == InBucket(feed, OperationalAlerts) && d.insights == InBucket(feed, Insights)
    ensures d.totalCount == |feed| && d.criticalCount == |d.critical| && d.opportunitiesCount == |d.opportunities|
  {
    var critical, opportunities, operational, insights := [], [], [], [];
    for i := 0 to |feed|
      invariant critical == InBucket(feed[..i], CriticalBucket) && opportunities == InBucket(feed[..i], Opportunities)
      invariant operational == InBucket(feed[..i], OperationalAlerts) && insights == InBucket(feed[..i], Insights)
    {
      assert feed[..i + 1][..i] == feed[..i];
      var n := feed[i];
      if n.priority == Critical {
        critical := critical + [n];
      } else if n.kind == BusinessOpportunity || n.kind == RevenueOptimization {
        opportunities := opportunities + [n];
      } else if n.kind == OperationalAlert {
        operational := operational + [n];
      } else {
        insights := insights + [n];
      }
    }
    assert feed[..|feed|] == feed;
    d := Dashboard(critical, opportunities, operational, insights, |feed|, |critical|, |opportunities|);
  }

  /** Every notification lands in exactly one bucket: a bucket holds exactly
      the feed's notifications of that bucket, and the bucket sizes add up to
      the total count. */
  lemma BucketsPartition(feed: seq<Notification>)
    ensures |InBucket(feed, CriticalBucket)| + |InBucket(feed, Opportunities)|
            + |InBucket(feed, OperationalAlerts)| + |InBucket(feed, Insights)| == |feed|
    ensures forall n, b :: n in InBucket(feed, b) <==> n in feed && BucketOf(n) == b
  {
    BucketSizes(feed);
    forall b: Bucket
      ensures forall n :: n in InBucket(feed, b) <==> n in feed && BucketOf(n) == b
    {
      InBucketMembers(feed, b);
    }
  }

  lemma {:induction false} BucketSizes(feed: seq<Notification>)
    ensures |InBucket(feed, CriticalBucket)| + |InBucket(feed, Opportunities)|
            + |InBucket(feed, OperationalAlerts)| + |InBucket(feed, Insights)| == |feed|
  {
    if feed != [] {
      BucketSizes(feed[..|feed| - 1]);
    }
  }

  lemma {:induction false} InBucketMembers(feed: seq<Notification>, b: Bucket)
    ensures forall n :: n in InBucket(feed, b) <==> n in feed && BucketOf(n) == b
  {
    if feed != [] {
      var p := feed[..|feed| - 1];
      InBucketMembers(p, b);
      assert feed == p + [feed[|feed| - 1]];
    }
  }

  // ------------------------------------------------------------- low stock

  /** The supplies of `low` at exactly zero, and those above zero. */
  function AtZero(low: seq<Supplies.Supply>): (r: seq<Supplies.Supply>)
    ensures forall s :: s in r <==> s in low && s.currentStock == 0
  {
    if low == [] then []
    else
      var p := low[..|low| - 1];
      assert low == p + [low[|low| - 1]];
      AtZero(p) + (if low[|low| - 1].currentStock == 0 then [low[|low| - 1]] else [])
  }

  function AboveZero(low: seq<Supplies.Supply>): (r: seq<Supplies.Supply>)
    ensures forall s :: s in r <==> s in low && s.currentStock > 0
  {
    if low == [] then []
    else
      var p := low[..|low| - 1];
      assert low == p + [low[|low| - 1]];
      AboveZero(p) + (if low[|low| - 1].currentStock > 0 then [low[|low| - 1]] else [])
  }

  /** `current_stock <= minimum_stock`, in query order. */
  function LowStock(supplies: seq<Supplies.Supply>): (r: seq<Supplies.Supply>)
    ensures forall s :: s in r <==> s in supplies && Supplies.IsLowStock(s)
  {
    if supplies == [] then []
    else
      var p := supplies[..|supplies| - 1];
      assert supplies == p + [supplies[|supplies| - 1]];
      LowStock(p) + (if Supplies.IsLowStock(supplies[|supplies| - 1]) then [supplies[|supplies| - 1]] else [])
  }

  /** `_analyze_low_stock`: a critical notice when some low supply is out of
      stock, then a high-priority notice when some low supply still has stock. */
  function LowStockNotifications(supplies: seq<Supplies.Supply>): seq<Notification> {
    var low := LowStock(supplies);
    (if AtZero(low) != [] then [Notification("critical_stock_out", InventoryWarning, Critical, None)] else [])
    + (if AboveZero(low) != [] then [Notification("low_stock_warning", InventoryWarning, High, None)] else [])
  }

  /** Critical and warning split the low supplies by the sign of the stock:
      a low supply is in exactly one of them unless its stock is negative,
      in which case it is in neither and raises no notice. */
  lemma LowStockSplit(supplies: seq<Supplies.Supply>)
    ensures var low := LowStock(supplies);
      (forall s :: s in low && s.currentStock >= 0 ==> (s in AtZero(low) <==> s !in AboveZero(low))) &&
      (forall s :: s in low && s.currentStock < 0 ==> s !in AtZero(low) && s !in AboveZero(low))
    ensures Notification("critical_stock_out", InventoryWarning, Critical, None) in LowStockNotifications(supplies)
      <==> exists s :: s in supplies && s.currentStock == 0 && s.minimumStock >= 0
    ensures Notification("low_stock_warning", InventoryWarning, High, None) in LowStockNotifications(supplies)
      <==> exists s :: s in supplies && 0 < s.currentStock <= s.minimumStock
  {
    CriticalNoticeIff(supplies);
    WarningNoticeIff(supplies);
  }

  lemma CriticalNoticeIff(supplies: seq<Supplies.Supply>)
    ensures Notification("critical_stock_out", InventoryWarning, Critical, None) in LowStockNotifications(supplies)
      <==> exists s :: s in supplies && s.currentStock == 0 && s.minimumStock >= 0
  {
    var low := LowStock(supplies);
    if exists s :: s in supplies && s.currentStock == 0 && s.minimumStock >= 0 {
      var s :| s in supplies && s.currentStock == 0 && s.minimumStock >= 0;
      assert s in AtZero(low);
    }
    if AtZero(low) != [] {
      assert AtZero(low)[0] in AtZero(low);
    }
  }

  lemma WarningNoticeIff(supplies: seq<Supplies.Supply>)
    ensures Notification("low_stock_warning", InventoryWarning, High, None) in LowStockNotifications(supplies)
      <==> exists s :: s in supplies && 0 < s.currentStock <= s.minimumStock
  {
    var low := LowStock(supplies);
    if exists s :: s in supplies && 0 < s.currentStock <= s.minimumStock {
      var s :| s in supplies && 0 < s.currentStock <= s.minimumStock;
      assert s in AboveZero(low);
    }
    if AboveZero(low) != [] {
      assert AboveZero(low)[0] in AboveZero(low);
    }
  }

  // ------------------------------------------------------- excessive usage

  /** A recent usage as the analyzer sees it: its supply's name. */
  datatype UsageRow = UsageRow(supplyName: string, quantityUsed: int, quantityExpected: Option<int>)

  /** `quantity_used > quantity_expected * 1.5`, for a usage with an expectation. */
  predicate IsExcessive(u: UsageRow) {
    u.quantityExpected.Some? && (u.quantityUsed as real) > (u.quantityExpected.value as real) * 1.5
  }

  /** The number of excessive usages of supplies called `name`. */
  function ExcessiveCount(usages: seq<UsageRow>, name: string): nat {
    if usages == [] then 0
    else
      var u := usages[|usages| - 1];
      ExcessiveCount(usages[..|usages| - 1], name) + (if IsExcessive(u) && u.supplyName == name then 1 else 0)
  }

  /** The repetition threshold of the excessive-usage rule. */
  const RepeatThreshold := 2

  /** Supply `x` had an excessive usage before supply `y` had one. */
  ghost predicate SeenBefore(usages: seq<UsageRow>, x: string, y: string) {
    exists p :: 0 <= p <= |usages| && ExcessiveCount(usages[..p], x) > 0 && ExcessiveCount(usages[..p], y) == 0
  }

  /** `_analyze_excessive_usage`: the excessive usages are grouped by supply
      name (a dict, so in order of first appearance) and every group of two
      or more yields one notice. `flagged` is the names noticed, in the order
      in which their first excessive usage appears. */
  method AnalyzeExcessiveUsage(usages: seq<UsageRow>) returns (flagged: seq<string>)
    ensures forall name :: name in flagged <==> ExcessiveCount(usages, name) >= RepeatThreshold
    ensures forall i, j :: 0 <= i < j < |flagged| ==> flagged[i] != flagged[j]
    ensures forall i, j :: 0 <= i < j < |flagged| ==> SeenBefore(usages, flagged[i], flagged[j])
  {
    var groups, order := GroupExcessive(usages);
    flagged := [];
    for k := 0 to |order|
      invariant forall name :: name in flagged <==> name in order[..k] && groups[name] >= RepeatThreshold
      invariant forall a, b :: 0 <= a < b < |flagged| ==> flagged[a] != flagged[b]
      invariant forall a :: 0 <= a < |flagged| ==> flagged[a] in order[..k]
      invariant forall a, b :: 0 <= a < b < |flagged| ==> SeenBefore(usages, flagged[a], flagged[b])
    {
      assert order[..k + 1] == order[..k] + [order[k]];
      if groups[order[k]] >= RepeatThreshold {
        assert order[k] !in order[..k];
        forall a | 0 <= a < |flagged| ensures SeenBefore(usages, flagged[a], order[k]) {
          var c :| 0 <= c < k && order[c] == flagged[a];
        }
        flagged := flagged + [order[k]];
      }
    }
    assert order[..|order|] == order;
  }

  /** The grouping loop: `groups` counts the excessive usages of each name
      that has one, and `order` lists those names once each, in order of
      first appearance. */
  method GroupExcessive(usages: seq<UsageRow>) returns (groups: map<string, nat>, order: seq<string>)
    ensures forall name :: name in groups <==> name in order
    ensures forall a, b :: 0 <= a < b < |order| ==> order[a] != order[b]
    ensures forall name :: name in groups ==> groups[name] == ExcessiveCount(usages, name) > 0
    ensures forall name :: name !in groups ==> ExcessiveCount(usages, name) == 0
    ensures forall a, b :: 0 <= a < b < |order| ==> SeenBefore(usages, order[a], order[b])
  {
    groups, order := map[], [];
    for i := 0 to |usages|
      invariant Grouped(usages[..i], groups, order)
    {
      assert usages[..i + 1][..i] == usages[..i];
      GroupStep(usages[..i + 1], groups, order);
      groups, order := Regroup(usages[i], groups), Reorder(usages[i], groups, order);
    }
    assert usages[..|usages|] == usages;
  }

  /** `groups[u.supply.name].append(u)` for an excessive usage `u`, counted. */
  function Regroup(u: UsageRow, groups: map<string, nat>): (g: map<string, nat>)
    ensures g.Keys == if IsExcessive(u) then groups.Keys + {u.supplyName} else groups.Keys
  {
    if !IsExcessive(u) then groups
    else groups[u.supplyName := (if u.supplyName in groups then groups[u.supplyName] else 0) + 1]
  }

  /** The dict's key order: a name met for the first time goes last. */
  function Reorder(u: UsageRow, groups: map<string, nat>, order: seq<string>): (o: seq<string>)
    ensures |o| == |order| + (if IsExcessive(u) && u.supplyName !in groups then 1 else 0)
    ensures o[..|order|] == order
  {
    if IsExcessive(u) && u.supplyName !in groups then order + [u.supplyName] else order
  }

  /** What the grouping loop has built after the usages `seen`. */
  ghost predicate Grouped(seen: seq<UsageRow>, groups: map<string, nat>, order: seq<string>) {
    (forall name :: name in groups <==> name in order) &&
    (forall a, b :: 0 <= a < b < |order| ==> order[a] != order[b]) &&
    (forall name :: name in groups ==> groups[name] == ExcessiveCount(seen, name) > 0) &&
    (forall name :: name !in groups ==> ExcessiveCount(seen, name) == 0) &&
    (forall a, b :: 0 <= a < b < |order| ==> SeenBefore(seen, order[a], order[b]))
  }

  /** One usage more: the grouping loop's body keeps `Grouped`. */
  lemma GroupStep(seen: seq<UsageRow>, groups: map<string, nat>, order: seq<string>)
    requires |seen| > 0 && Grouped(seen[..|seen| - 1], groups, order)
    ensures Grouped(seen, Regroup(seen[|seen| - 1], groups), Reorder(seen[|seen| - 1], groups, order))
  {
    var p := seen[..|seen| - 1];
    var u := seen[|seen| - 1];
    var groups', order' := Regroup(u, groups), Reorder(u, groups, order);
    forall n ensures ExcessiveCount(seen, n) == ExcessiveCount(p, n) + (if IsExcessive(u) && u.supplyName == n then 1 else 0) {
    }
    forall a, b | 0 <= a < b < |order| ensures SeenBefore(seen, order[a], order[b]) {
      SeenBeforeLater(p, seen, order[a], order[b]);
    }
    if IsExcessive(u) && u.supplyName !in groups {
      assert order' == order + [u.supplyName];
      forall a | 0 <= a < |order| ensures SeenBefore(seen, order[a], u.supplyName) {
        assert seen[..|p|] == p;
        assert ExcessiveCount(p, order[a]) > 0;
      }
      forall a, b | 0 <= a < b < |order'| ensures SeenBefore(seen, order'[a], order'[b]) {
        if b < |order| {
          assert order'[a] == order[a] && order'[b] == order[b];
        }
      }
    } else {
      assert order' == order;
    }
    assert forall name :: name in groups' <==> name in order';
    forall name ensures name in groups' ==> groups'[name] == ExcessiveCount(seen, name) > 0
      ensures name !in groups' ==> ExcessiveCount(seen, name) == 0
    {
      if IsExcessive(u) && name == u.supplyName {
        assert groups'[name] == (if name in groups then groups[name] else 0) + 1;
      } else {
        assert name in groups' <==> name in groups;
        assert name in groups ==> groups'[name] == groups[name];
      }
    }
  }

  /** Once seen before in a prefix, seen before in the whole. */
  lemma SeenBeforeLater(p: seq<UsageRow>, seen: seq<UsageRow>, x: string, y: string)
    requires p <= seen && SeenBefore(p, x, y)
    ensures SeenBefore(seen, x, y)
  {
    var q :| 0 <= q <= |p| && ExcessiveCount(p[..q], x) > 0 && ExcessiveCount(p[..q], y) == 0;
    assert seen[..q] == p[..q];
  }

  /** The notices for the flagged names, one each. */
  function ExcessiveUsageNotifications(flagged: seq<string>): (r: seq<Notification>)
    ensures |r| == |flagged|
    ensures forall k :: 0 <= k < |r| ==> r[k].id == "excessive_usage_" + flagged[k] && r[k].priority == Medium
  {
    seq(|flagged|, k requires 0 <= k < |flagged| => Notification("excessive_usage_" + flagged[k], OperationalAlert, Medium, None))
  }

  // ------------------------------------------------------------ occupancy

  /** `occupancy_rate`: active stays over rooms, as a percentage; 0 with no rooms. */
  function OccupancyRate(activeStays: nat, totalRooms: nat): (r: real)
    ensures r >= 0.0
    ensures totalRooms == 0 ==> r == 0.0
  {
    if totalRooms > 0 then (activeStays as real) / (totalRooms as real) * 100.0 else 0.0
  }

  /** `_analyze_current_occupancy`: above 85 % a high-priority opportunity,
      below 30 % a medium-priority alert, otherwise nothing. */
  function OccupancyNotification(activeStays: nat, totalRooms: nat): Option<Notification> {
    var rate := OccupancyRate(activeStays, totalRooms);
    if rate > 85.0 then Some(Notification("high_occupancy", BusinessOpportunity, High, None))
    else if rate < 30.0 then Some(Notification("low_occupancy", OperationalAlert, Medium, None))
    else None
  }

  /** The thresholds in terms of the counts: more than 85 active stays per
      100 rooms raise the high notice, fewer than 30 the low one; a property
      with no rooms at all reads as empty and raises the low notice. */
  lemma OccupancyThresholds(activeStays: nat, totalRooms: nat)
    ensures var n := OccupancyNotification(activeStays, totalRooms);
      (n.Some? && n.value.id == "high_occupancy" <==> totalRooms > 0 && activeStays * 100 > totalRooms * 85) &&
      (n.Some? && n.value.id == "low_occupancy" <==> activeStays * 100 < totalRooms * 30 || totalRooms == 0) &&
      (n.None? <==> totalRooms > 0 && totalRooms * 30 <= activeStays * 100 <= totalRooms * 85)
  {
    if totalRooms > 0 {
      PercentCompare(activeStays, totalRooms, 85);
      PercentCompare(activeStays, totalRooms, 30);
    }
  }

  /** `a / t * 100` against a whole percentage `k`, without the division. */
  lemma PercentCompare(a: nat, t: nat, k: nat)
    requires t > 0
    ensures OccupancyRate(a, t) > k as real <==> a * 100 > t * k
    ensures OccupancyRate(a, t) < k as real <==> a * 100 < t * k
  {
    var q := (a as real) / (t as real);
    assert q * (t as real) == a as real;
    assert OccupancyRate(a, t) * (t as real) == (a * 100) as real;
    assert (t * k) as real == (k as real) * (t as real);
  }

  // --------------------------------------------------------------- revenue

  /** `_analyze_revenue_trends`: only with revenue last month, a fall of more
      than 15 % raises a high-priority notice and a rise of more than 20 % a
      medium-priority one. */
  function RevenueNotification(current: real, last: real): Option<Notification> {
    if last > 0.0 then
      var changePercent := (current - last) / last * 100.0;
      if changePercent < -15.0 then Some(Notification("revenue_decline", RevenueOptimization, High, None))
      else if changePercent > 20.0 then Some(Notification("revenue_growth", BusinessOpportunity, Medium, None))
      else None
    else None
  }

  /** The rule in terms of the two totals: a decline notice iff this month is
      below 85 % of last month, a growth notice iff above 120 %. */
  lemma RevenueThresholds(current: real, last: real)
    ensures var n := RevenueNotification(current, last);
      (n.Some? && n.value.id == "revenue_decline" <==> last > 0.0 && current < 0.85 * last) &&
      (n.Some? && n.value.id == "revenue_growth" <==> last > 0.0 && current > 1.2 * last) &&
      (last <= 0.0 ==> n.None?)
  {
    if last > 0.0 {
      var change := (current - last) / last * 100.0;
      assert change * last == (current - last) * 100.0;
      assert change < -15.0 <==> current < 0.85 * last;
      assert change > 20.0 <==> current > 1.2 * last;
    }
  }
}
