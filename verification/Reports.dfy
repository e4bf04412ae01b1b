/** Fleet reports (backend/reports.py): the date range, the headline numbers and the trend buckets.
    Days are day numbers, instants are in microseconds, and the report time zone is a fixed offset. */
module Reports {
  import opened Text

  const DAY := 86_400_000_000

  function LocalDay(at: int, tz: int): int { (at + tz) / DAY }

  // The instant at which the local day begins.
  function Midnight(day: int, tz: int): int { day * DAY - tz }

  // ---- The range ----

  datatype Range = Range(start: int, end: int, first: int, last: int)

  function NormalizeDays(days: Option<string>): string {
    if days == Some("7") || days == Some("30") || days == Some("90") || days == Some("all") then days.value else "30"
  }

  function DaysBack(days: string): int {
    if days == "7" then 7 else if days == "90" then 90 else 30
  }

  // The dates asked for, if both are dates, in order.
  function Custom(dateFrom: Option<int>, dateTo: Option<int>): Option<(int, int)> {
    if dateFrom.None? || dateTo.None? then None
    else if dateFrom.value > dateTo.value then Some((dateTo.value, dateFrom.value))
    else Some((dateFrom.value, dateTo.value))
  }

  function ResolveRange(tz: int, now: int, days: Option<string>, dateFrom: Option<int>, dateTo: Option<int>,
                        earliest: Option<int>): Range
  {
    var today := LocalDay(now, tz);
    var custom := Custom(dateFrom, dateTo);
    var choice := NormalizeDays(days);
    var last := if custom.Some? then custom.value.1 else today;
    var first :=
      if custom.Some? then custom.value.0
      else if choice == "all" then (if earliest.Some? && earliest.value < today then earliest.value else today)
      else today - (DaysBack(choice) - 1);
    Range(Midnight(first, tz), Midnight(last + 1, tz), first, last)
  }

  lemma DayBounds(at: int, tz: int, day: int)
    ensures Midnight(day, tz) <= at <==> day <= LocalDay(at, tz)
  {
  }

  /** The instants of a resolved range are exactly those whose local day is in it, and the range is not
      empty: two custom dates in either order, everything since the earliest ticket, or 7, 30 or 90 days
      ending today. */
  lemma RangeHoldsItsDays(tz: int, now: int, days: Option<string>, dateFrom: Option<int>, dateTo: Option<int>,
                          earliest: Option<int>, at: int)
    ensures var r := ResolveRange(tz, now, days, dateFrom, dateTo, earliest);
            && r.first <= r.last
            && (r.start <= at < r.end <==> r.first <= LocalDay(at, tz) <= r.last)
            && (dateFrom.Some? && dateTo.Some? ==>
                  {r.first, r.last} == {dateFrom.value, dateTo.value})
            && (dateFrom.None? || dateTo.None? ==>
                  r.last == LocalDay(now, tz)
                  && (days != Some("all") ==> r.last - r.first + 1 in {7, 30, 90})
                  && (days == Some("all") && earliest.Some? && earliest.value <= r.last ==> r.first == earliest.value))
  {
    var r := ResolveRange(tz, now, days, dateFrom, dateTo, earliest);
    DayBounds(at, tz, r.first);
    DayBounds(at, tz, r.last + 1);
  }

  // ---- Buckets ----

  // Daily up to 31 days, weekly up to 182, then every 28 days.
  function StepOf(first: int, last: int): (step: nat)
    ensures step > 0
  {
    var span := last - first + 1;
    if span <= 31 then 1 else if span <= 182 then 7 else 28
  }

  function BucketCount(first: int, last: int): nat {
    var n := (last - first + 1 + StepOf(first, last) - 1) / StepOf(first, last);
    if n < 0 then 0 else n
  }

  function BucketOf(at: int, first: int, step: nat, tz: int): int
    requires step > 0
  {
    (LocalDay(at, tz) - first) / step
  }

  datatype Bucket = Bucket(start: int, end: int, filed: nat, resolved: nat)

  datatype Granularity = Daily | Weekly | FourWeekly

  datatype Trend = Trend(granularity: Granularity, buckets: seq<Bucket>)

  // How many of the events fall in bucket `i`.
  function InBucket(events: seq<int>, first: int, step: nat, tz: int, i: int): nat
    requires step > 0
  {
    if events == [] then 0
    else
      InBucket(events[..|events| - 1], first, step, tz, i)
      + if BucketOf(events[|events| - 1], first, step, tz) == i then 1 else 0
  }

  function BucketStart(first: int, step: nat, i: nat): int { first + i * step }

  function BucketEnd(first: int, last: int, step: nat, i: nat): int {
    var e := BucketStart(first, step, i) + step - 1;
    if e < last then e else last
  }

  function TrendOf(received: seq<int>, resolved: seq<int>, first: int, last: int, tz: int): (t: Trend)
    ensures |t.buckets| == BucketCount(first, last)
  {
    var step := StepOf(first, last);
    Trend(if step == 1 then Daily else if step == 7 then Weekly else FourWeekly,
          seq(BucketCount(first, last), i requires 0 <= i =>
            Bucket(BucketStart(first, step, i), BucketEnd(first, last, step, i),
                   InBucket(received, first, step, tz, i), InBucket(resolved, first, step, tz, i))))
  }

  // ---- What the buckets cover ----

  lemma EnoughBuckets(first: int, last: int)
    requires first <= last
    ensures var n, step := BucketCount(first, last), StepOf(first, last);
            n > 0 && first + (n - 1) * step <= last < first + n * step
  {
  }

  /** The buckets start at the first day, follow one another without gap or overlap, end at the last day,
      and none is empty or longer than the step. */
  lemma BucketsTile(received: seq<int>, resolved: seq<int>, first: int, last: int, tz: int)
    requires first <= last
    ensures var t, step := TrendOf(received, resolved, first, last, tz), StepOf(first, last);
            var n := |t.buckets|;
            && n > 0 && t.buckets[0].start == first && t.buckets[n - 1].end == last
            && (forall i | 0 <= i < n - 1 :: t.buckets[i + 1].start == t.buckets[i].end + 1)
            && (forall i | 0 <= i < n :: t.buckets[i].start <= t.buckets[i].end < t.buckets[i].start + step)
            && (forall i | 0 <= i < n - 1 :: t.buckets[i].end == t.buckets[i].start + step - 1)
            && (t.granularity == (if last - first < 31 then Daily else if last - first < 182 then Weekly else FourWeekly))
  {
    hide InBucket, BucketCount;
    EnoughBuckets(first, last);
    var n, step := BucketCount(first, last), StepOf(first, last);
    forall i | 0 <= i < n - 1
      ensures first + i * step + step - 1 < last
      ensures BucketStart(first, step, i + 1) == BucketStart(first, step, i) + step
    {
      Monotone(i + 1, n - 1, step);
      Successor(i, step);
    }
    Successor(n - 1, step);
  }

  lemma Monotone(i: nat, k: nat, step: nat)
    requires i <= k
    ensures i * step <= k * step
  {
  }

  lemma Successor(i: nat, step: nat)
    ensures (i + 1) * step == i * step + step
  {
  }

  // ---- What the buckets count ----

  // How many of the events have their local day in lo..hi.
  function OnDays(events: seq<int>, tz: int, lo: int, hi: int): nat {
    if events == [] then 0
    else
      OnDays(events[..|events| - 1], tz, lo, hi) + if lo <= LocalDay(events[|events| - 1], tz) <= hi then 1 else 0
  }

  lemma BucketDays(at: int, first: int, step: nat, tz: int, i: int)
    requires step > 0
    ensures BucketOf(at, first, step, tz) == i <==> first + i * step <= LocalDay(at, tz) < first + i * step + step
  {
    var d := LocalDay(at, tz) - first;
    var q := d / step;
    assert q * step <= d < q * step + step;
    if q < i {
      assert (q + 1) * step <= i * step by { MonotoneInt(q + 1, i, step); }
    } else if i < q {
      assert (i + 1) * step <= q * step by { MonotoneInt(i + 1, q, step); }
    }
  }

  lemma MonotoneInt(i: int, k: int, step: nat)
    requires i <= k
    ensures i * step <= k * step
  {
  }

  lemma {:induction false} InBucketIsOnDays(events: seq<int>, first: int, step: nat, tz: int, i: int)
    requires step > 0
    ensures InBucket(events, first, step, tz, i) == OnDays(events, tz, first + i * step, first + i * step + step - 1)
  {
    hide BucketOf, LocalDay;
    if events != [] {
      InBucketIsOnDays(events[..|events| - 1], first, step, tz, i);
      BucketDays(events[|events| - 1], first, step, tz, i);
    }
  }

  lemma {:induction false} DaysSplit(events: seq<int>, tz: int, lo: int, mid: int, hi: int)
    requires lo <= mid + 1 && mid <= hi
    ensures OnDays(events, tz, lo, hi) == OnDays(events, tz, lo, mid) + OnDays(events, tz, mid + 1, hi)
  {
    if events != [] {
      DaysSplit(events[..|events| - 1], tz, lo, mid, hi);
    }
  }

  /** A bucket counts exactly the events of its days, unless it is the last one and some event lies
      after the last day but within the step; then it counts more. */
  lemma BucketCountsItsDays(events: seq<int>, first: int, last: int, tz: int, i: nat)
    requires first <= last && i < BucketCount(first, last)
    ensures var step := StepOf(first, last);
            var lo, hi := BucketStart(first, step, i), BucketEnd(first, last, step, i);
            InBucket(events, first, step, tz, i) == OnDays(events, tz, lo, hi)
            <==> OnDays(events, tz, hi + 1, lo + step - 1) == 0
  {
    hide InBucket, OnDays;
    var step := StepOf(first, last);
    EnoughBuckets(first, last);
    Monotone(i, BucketCount(first, last) - 1, step);
    InBucketIsOnDays(events, first, step, tz, i);
    DaysSplit(events, tz, BucketStart(first, step, i), BucketEnd(first, last, step, i),
              BucketStart(first, step, i) + step - 1);
  }

  function Total(counts: seq<nat>): nat {
    if counts == [] then 0 else Total(counts[..|counts| - 1]) + counts[|counts| - 1]
  }

  function Filed(buckets: seq<Bucket>): (r: seq<nat>)
    ensures |r| == |buckets|
  {
    seq(|buckets|, i requires 0 <= i < |buckets| => buckets[i].filed)
  }

  function Resolved(buckets: seq<Bucket>): (r: seq<nat>)
    ensures |r| == |buckets|
  {
    seq(|buckets|, i requires 0 <= i < |buckets| => buckets[i].resolved)
  }

  lemma {:induction false} TotalIsOnDays(events: seq<int>, first: int, step: nat, tz: int, counts: seq<nat>)
    requires step > 0 && forall i | 0 <= i < |counts| :: counts[i] == InBucket(events, first, step, tz, i)
    ensures Total(counts) == OnDays(events, tz, first, first + |counts| * step - 1)
  {
    hide InBucket, OnDays;
    if counts == [] {
      NoDays(events, tz, first, first - 1);
    } else {
      var n := |counts| - 1;
      TotalIsOnDays(events, first, step, tz, counts[..n]);
      InBucketIsOnDays(events, first, step, tz, n);
      Successor(n, step);
      Monotone(0, n, step);
      DaysSplit(events, tz, first, first + n * step - 1, first + n * step + step - 1);
    }
  }

  lemma {:induction false} NoDays(events: seq<int>, tz: int, lo: int, hi: int)
    requires hi < lo
    ensures OnDays(events, tz, lo, hi) == 0
  {
    if events != [] {
      NoDays(events[..|events| - 1], tz, lo, hi);
    }
  }

  lemma {:induction false} AllOnDays(events: seq<int>, tz: int, lo: int, hi: int)
    requires forall k | 0 <= k < |events| :: lo <= LocalDay(events[k], tz) <= hi
    ensures OnDays(events, tz, lo, hi) == |events|
  {
    if events != [] {
      AllOnDays(events[..|events| - 1], tz, lo, hi);
    }
  }

  lemma {:induction false} NoneOnDays(events: seq<int>, tz: int, lo: int, hi: int)
    requires forall k | 0 <= k < |events| :: !(lo <= LocalDay(events[k], tz) <= hi)
    ensures OnDays(events, tz, lo, hi) == 0
  {
    if events != [] {
      NoneOnDays(events[..|events| - 1], tz, lo, hi);
    }
  }

  // ---- The bucket loop ----

  // One list of counts, incremented event by event.
  method Tally(events: seq<int>, first: int, step: nat, n: nat, tz: int) returns (counts: array<nat>)
    requires step > 0
    ensures fresh(counts) && counts.Length == n
    ensures forall i | 0 <= i < n :: counts[i] == InBucket(events, first, step, tz, i)
  {
    hide BucketOf;
    counts := new nat[n](i => 0);
    for k := 0 to |events|
      invariant forall i | 0 <= i < n :: counts[i] == InBucket(events[..k], first, step, tz, i)
    {
      assert events[..k + 1][..k] == events[..k];
      var i := BucketOf(events[k], first, step, tz);
      if 0 <= i < n {
        counts[i] := counts[i] + 1;
      }
    }
    assert events[..|events|] == events;
  }

  method ComputeTrend(received: seq<int>, resolved: seq<int>, first: int, last: int, tz: int) returns (t: Trend)
    ensures t == TrendOf(received, resolved, first, last, tz)
  {
    hide InBucket, BucketCount;
    var step, n := StepOf(first, last), BucketCount(first, last);
    var filed := Tally(received, first, step, n, tz);
    var closed := Tally(resolved, first, step, n, tz);
    var buckets: seq<Bucket> := [];
    for i := 0 to n
      invariant |buckets| == i
      invariant forall k | 0 <= k < i :: buckets[k] == TrendOf(received, resolved, first, last, tz).buckets[k]
    {
      buckets := buckets + [Bucket(BucketStart(first, step, i), BucketEnd(first, last, step, i), filed[i], closed[i])];
    }
    assert buckets == TrendOf(received, resolved, first, last, tz).buckets;
    t := Trend(if step == 1 then Daily else if step == 7 then Weekly else FourWeekly, buckets);
  }

  // ---- The overview ----

  datatype Ticket = Ticket(id: int, group: string, status: string, priority: string, category: string,
                           plate: Option<string>, receivedAt: int)

  // A status change of a ticket.
  datatype Change = Change(incident: int, toStatus: string, changedAt: int)

  // A repair cost of a ticket, on a day.
  datatype Cost = Cost(incident: int, amount: real, incurredOn: int)

  predicate InScope(t: Ticket, allowed: Option<seq<string>>) { allowed.None? || t.group in allowed.value }

  predicate IsOpen(t: Ticket) { t.status != "resolved" && t.status != "ignored" }

  function OpenTickets(tickets: seq<Ticket>, allowed: Option<seq<string>>): seq<Ticket> {
    if tickets == [] then []
    else
      OpenTickets(tickets[..|tickets| - 1], allowed)
      + var t := tickets[|tickets| - 1]; if IsOpen(t) && InScope(t, allowed) then [t] else []
  }

  function ReceivedIn(tickets: seq<Ticket>, allowed: Option<seq<string>>, start: int, end: int): (r: seq<int>)
    ensures forall k | 0 <= k < |r| :: start <= r[k] < end
  {
    if tickets == [] then []
    else
      ReceivedIn(tickets[..|tickets| - 1], allowed, start, end)
      + var t := tickets[|tickets| - 1];
        if start <= t.receivedAt < end && InScope(t, allowed) then [t.receivedAt] else []
  }

  predicate TicketInScope(tickets: seq<Ticket>, id: int, allowed: Option<seq<string>>) {
    exists t | t in tickets :: t.id == id && InScope(t, allowed)
  }

  function ResolvedIn(changes: seq<Change>, tickets: seq<Ticket>, allowed: Option<seq<string>>, start: int, end: int)
    : (r: seq<int>)
    ensures forall k | 0 <= k < |r| :: start <= r[k] < end
  {
    if changes == [] then []
    else
      ResolvedIn(changes[..|changes| - 1], tickets, allowed, start, end)
      + var c := changes[|changes| - 1];
        if c.toStatus == "resolved" && start <= c.changedAt < end && TicketInScope(tickets, c.incident, allowed)
        then [c.changedAt] else []
  }

  function WithPriority(tickets: seq<Ticket>, p: string): nat {
    if tickets == [] then 0
    else WithPriority(tickets[..|tickets| - 1], p) + if tickets[|tickets| - 1].priority == p then 1 else 0
  }

  function Plates(tickets: seq<Ticket>): set<string> {
    set t | t in tickets && t.plate.Some? && t.plate.value != "" :: t.plate.value
  }

  function Unassigned(tickets: seq<Ticket>): nat {
    if tickets == [] then 0
    else
      Unassigned(tickets[..|tickets| - 1])
      + var t := tickets[|tickets| - 1]; if t.plate.None? || t.plate.value == "" then 1 else 0
  }

  function Spend(costs: seq<Cost>, tickets: seq<Ticket>, allowed: Option<seq<string>>, first: int, last: int): real {
    if costs == [] then 0.0
    else
      var c := costs[|costs| - 1];
      Spend(costs[..|costs| - 1], tickets, allowed, first, last)
      + if first <= c.incurredOn <= last && TicketInScope(tickets, c.incident, allowed) then c.amount else 0.0
  }

  // How many tickets a category has.
  datatype Count = Count(category: string, n: nat)

  function CountOne(counts: seq<Count>, category: string): (r: seq<Count>) {
    if counts == [] then [Count(category, 1)]
    else if counts[0].category == category then [counts[0].(n := counts[0].n + 1)] + counts[1..]
    else [counts[0]] + CountOne(counts[1..], category)
  }

  // The categories in the order in which they are first seen.
  function CategoryCounts(tickets: seq<Ticket>): seq<Count> {
    if tickets == [] then []
    else CountOne(CategoryCounts(tickets[..|tickets| - 1]), tickets[|tickets| - 1].category)
  }

  function InsertCount(sorted: seq<Count>, c: Count): (r: seq<Count>)
    ensures |r| == |sorted| + 1
  {
    if sorted == [] || c.n > sorted[0].n then [c] + sorted else [sorted[0]] + InsertCount(sorted[1..], c)
  }

  // The most common first, equals in the order in which they were counted.
  function MostCommon(counts: seq<Count>): (r: seq<Count>)
    ensures |r| == |counts|
  {
    if counts == [] then [] else InsertCount(MostCommon(counts[..|counts| - 1]), counts[|counts| - 1])
  }

  datatype Overview = Overview(openCount: nat, vehiclesOpen: nat, openUnassigned: nat, newInRange: nat,
                               resolvedInRange: nat, repairSpend: real, backlog: seq<nat>, categories: seq<Count>,
                               trend: Trend)

  const PRIORITIES := ["urgent", "high", "medium", "low"]

  method FleetOverview(tickets: seq<Ticket>, changes: seq<Change>, costs: seq<Cost>, allowed: Option<seq<string>>,
                       range: Range, tz: int)
    returns (o: Overview)
    ensures o == OverviewOf(tickets, changes, costs, allowed, range, tz)
  {
    var open := OpenTickets(tickets, allowed);
    var received := ReceivedIn(tickets, allowed, range.start, range.end);
    var resolved := ResolvedIn(changes, tickets, allowed, range.start, range.end);
    var backlog: seq<nat> := [];
    for k := 0 to |PRIORITIES|
      invariant |backlog| == k
      invariant forall j | 0 <= j < k :: backlog[j] == WithPriority(open, PRIORITIES[j])
    {
      backlog := backlog + [WithPriority(open, PRIORITIES[k])];
    }
    var counts: seq<Count> := [];
    for k := 0 to |open|
      invariant counts == CategoryCounts(open[..k])
    {
      assert open[..k + 1][..k] == open[..k];
      counts := CountOne(counts, open[k].category);
    }
    assert open[..|open|] == open;
    var trend := ComputeTrend(received, resolved, range.first, range.last, tz);
    o := Overview(|open|, |Plates(open)|, Unassigned(open), |received|, |resolved|,
                  Spend(costs, tickets, allowed, range.first, range.last), backlog, MostCommon(counts), trend);
  }

  function OverviewOf(tickets: seq<Ticket>, changes: seq<Change>, costs: seq<Cost>, allowed: Option<seq<string>>,
                      range: Range, tz: int)
    : Overview
  {
    var open := OpenTickets(tickets, allowed);
    var received := ReceivedIn(tickets, allowed, range.start, range.end);
    var resolved := ResolvedIn(changes, tickets, allowed, range.start, range.end);
    Overview(|open|, |Plates(open)|, Unassigned(open), |received|, |resolved|,
             Spend(costs, tickets, allowed, range.first, range.last),
             seq(|PRIORITIES|, i requires 0 <= i < |PRIORITIES| => WithPriority(open, PRIORITIES[i])),
             MostCommon(CategoryCounts(open)),
             TrendOf(received, resolved, range.first, range.last, tz))
  }

  ghost predicate RangeOfDays(range: Range, tz: int) {
    range.first <= range.last && range.start == Midnight(range.first, tz) && range.end == Midnight(range.last + 1, tz)
  }

  lemma SelectedDays(events: seq<int>, range: Range, tz: int)
    requires RangeOfDays(range, tz) && forall k | 0 <= k < |events| :: range.start <= events[k] < range.end
    ensures forall k | 0 <= k < |events| :: range.first <= LocalDay(events[k], tz) <= range.last
  {
    forall k | 0 <= k < |events|
      ensures range.first <= LocalDay(events[k], tz) <= range.last
    {
      DayBounds(events[k], tz, range.first);
      DayBounds(events[k], tz, range.last + 1);
    }
  }

  lemma {:induction false} SelectedTotal(events: seq<int>, range: Range, tz: int, counts: seq<nat>)
    requires RangeOfDays(range, tz) && forall k | 0 <= k < |events| :: range.start <= events[k] < range.end
    requires var step := StepOf(range.first, range.last);
             |counts| == BucketCount(range.first, range.last)
             && forall i | 0 <= i < |counts| :: counts[i] == InBucket(events, range.first, step, tz, i)
    ensures Total(counts) == |events|
    ensures forall i | 0 <= i < |counts| ::
              counts[i] == OnDays(events, tz, BucketStart(range.first, StepOf(range.first, range.last), i),
                                  BucketEnd(range.first, range.last, StepOf(range.first, range.last), i))
  {
    hide InBucket, OnDays, BucketCount, RangeOfDays, LocalDay;
    var step := StepOf(range.first, range.last);
    SelectedDays(events, range, tz);
    assert range.first <= range.last by { DaysInOrder(range, tz); }
    EnoughBuckets(range.first, range.last);
    TotalIsOnDays(events, range.first, step, tz, counts);
    AllOnDays(events, tz, range.first, range.first + |counts| * step - 1);
    forall i | 0 <= i < |counts|
      ensures counts[i] == OnDays(events, tz, BucketStart(range.first, step, i), BucketEnd(range.first, range.last, step, i))
    {
      Overhang(range.first, range.last, i);
      NoneOnDays(events, tz, BucketEnd(range.first, range.last, step, i) + 1, BucketStart(range.first, step, i) + step - 1);
      BucketCountsItsDays(events, range.first, range.last, tz, i);
    }
  }

  lemma DaysInOrder(range: Range, tz: int)
    requires RangeOfDays(range, tz)
    ensures range.first <= range.last
  {
  }

  // The days a bucket counts beyond its end are beyond the last day.
  lemma Overhang(first: int, last: int, i: nat)
    ensures var step := StepOf(first, last);
            BucketEnd(first, last, step, i) < BucketStart(first, step, i) + step - 1 ==>
              BucketEnd(first, last, step, i) == last
  {
  }

  /** For a resolved range the trend adds up to the headline numbers: the bucket counts sum to the new
      and the resolved tickets, and each bucket counts exactly the events of its own days. */
  lemma TrendAddsUp(tickets: seq<Ticket>, changes: seq<Change>, costs: seq<Cost>, allowed: Option<seq<string>>,
                    range: Range, tz: int)
    requires RangeOfDays(range, tz)
    ensures var o := OverviewOf(tickets, changes, costs, allowed, range, tz);
            var received := ReceivedIn(tickets, allowed, range.start, range.end);
            var resolved := ResolvedIn(changes, tickets, allowed, range.start, range.end);
            && Total(Filed(o.trend.buckets)) == o.newInRange
            && Total(Resolved(o.trend.buckets)) == o.resolvedInRange
            && forall b | b in o.trend.buckets ::
                 b.filed == OnDays(received, tz, b.start, b.end) && b.resolved == OnDays(resolved, tz, b.start, b.end)
  {
    hide InBucket, OnDays, BucketCount, RangeOfDays, StepOf, BucketStart, BucketEnd, ReceivedIn, ResolvedIn, Total;
    var o := OverviewOf(tickets, changes, costs, allowed, range, tz);
    SelectedTotal(ReceivedIn(tickets, allowed, range.start, range.end), range, tz, Filed(o.trend.buckets));
    SelectedTotal(ResolvedIn(changes, tickets, allowed, range.start, range.end), range, tz, Resolved(o.trend.buckets));
    forall b | b in o.trend.buckets
      ensures b.filed == OnDays(ReceivedIn(tickets, allowed, range.start, range.end), tz, b.start, b.end)
      ensures b.resolved == OnDays(ResolvedIn(changes, tickets, allowed, range.start, range.end), tz, b.start, b.end)
    {
      var i :| 0 <= i < |o.trend.buckets| && o.trend.buckets[i] == b;
      assert Filed(o.trend.buckets)[i] == b.filed && Resolved(o.trend.buckets)[i] == b.resolved;
    }
  }

  /** Every range the page can resolve is such a range of days. */
  lemma ResolvedRangeAddsUp(tz: int, now: int, days: Option<string>, dateFrom: Option<int>, dateTo: Option<int>,
                            earliest: Option<int>)
    ensures RangeOfDays(ResolveRange(tz, now, days, dateFrom, dateTo, earliest), tz)
  {
    RangeHoldsItsDays(tz, now, days, dateFrom, dateTo, earliest, 0);
  }

  ghost predicate KnownPriority(t: Ticket) { t.priority in PRIORITIES }

  ghost function Prioritised(tickets: seq<Ticket>): nat {
    WithPriority(tickets, "urgent") + WithPriority(tickets, "high") + WithPriority(tickets, "medium")
    + WithPriority(tickets, "low")
  }

  lemma {:induction false} Backlog(tickets: seq<Ticket>)
    ensures Prioritised(tickets) <= |tickets|
    ensures Prioritised(tickets) == |tickets| <==> forall t | t in tickets :: KnownPriority(t)
  {
    if tickets != [] {
      var before, last := tickets[..|tickets| - 1], tickets[|tickets| - 1];
      Backlog(before);
      assert forall t :: t in tickets <==> t in before || t == last;
      assert (forall t | t in tickets :: KnownPriority(t))
             <==> (forall t | t in before :: KnownPriority(t)) && KnownPriority(last);
    }
  }

  lemma TotalOfMore(c: seq<nat>, x: nat)
    ensures Total(c + [x]) == Total(c) + x
  {
    assert (c + [x])[..|c|] == c;
  }

  lemma TotalOfFour(a: nat, b: nat, c: nat, d: nat)
    ensures Total([a, b, c, d]) == a + b + c + d
  {
    hide Total;
    TotalOfMore([], a);
    TotalOfMore([a], b);
    TotalOfMore([a, b], c);
    TotalOfMore([a, b, c], d);
    assert [] + [a] == [a] && [a] + [b] == [a, b] && [a, b] + [c] == [a, b, c] && [a, b, c] + [d] == [a, b, c, d];
    assert Total([]) == 0 by { TotalOfNone(); }
  }

  lemma TotalOfNone()
    ensures Total([]) == 0
  {
  }

  /** The backlog by priority adds up to the open tickets exactly when all of them have one of the four
      priorities. */
  lemma BacklogAddsUp(tickets: seq<Ticket>, changes: seq<Change>, costs: seq<Cost>, allowed: Option<seq<string>>,
                    range: Range, tz: int)
    ensures var o := OverviewOf(tickets, changes, costs, allowed, range, tz);
            Total(o.backlog) == o.openCount <==> forall t | t in OpenTickets(tickets, allowed) :: KnownPriority(t)
  {
    hide WithPriority, TrendOf, ReceivedIn, ResolvedIn, OpenTickets, Total;
    var open := OpenTickets(tickets, allowed);
    Backlog(open);
    var b := OverviewOf(tickets, changes, costs, allowed, range, tz).backlog;
    TotalOfFour(b[0], b[1], b[2], b[3]);
    assert b == [b[0], b[1], b[2], b[3]];
    assert Total(b) == Prioritised(open);
  }

  // ---- Categories ----

  function WithCategory(tickets: seq<Ticket>, category: string): nat {
    if tickets == [] then 0
    else WithCategory(tickets[..|tickets| - 1], category) + if tickets[|tickets| - 1].category == category then 1 else 0
  }

  ghost function SumCounts(counts: seq<Count>): nat {
    if counts == [] then 0 else counts[0].n + SumCounts(counts[1..])
  }

  // Each category of the tickets is listed once, with its number of tickets.
  ghost predicate Lists(counts: seq<Count>, tickets: seq<Ticket>) {
    && (forall i, j | 0 <= i < j < |counts| :: counts[i].category != counts[j].category)
    && (forall i | 0 <= i < |counts| :: counts[i].n == WithCategory(tickets, counts[i].category) > 0)
    && (forall category :: WithCategory(tickets, category) > 0 ==> Listed(counts, category))
  }

  lemma {:induction false} CountedOne(counts: seq<Count>, category: string)
    requires forall i, j | 0 <= i < j < |counts| :: counts[i].category != counts[j].category
    ensures var r := CountOne(counts, category);
            && SumCounts(r) == SumCounts(counts) + 1
            && |counts| <= |r| <= |counts| + 1
            && (forall i | 0 <= i < |counts| ::
                  r[i] == counts[i].(n := counts[i].n + if counts[i].category == category then 1 else 0))
            && (|r| > |counts| ==> r[|counts|] == Count(category, 1))
            && (|r| == |counts| <==> Listed(counts, category))
  {
    if counts != [] {
      var rest := counts[1..];
      var r := CountOne(counts, category);
      if counts[0].category == category {
        assert r[1..] == rest;
      } else {
        CountedOne(rest, category);
        assert r[1..] == CountOne(rest, category);
        assert Listed(counts, category) <==> Listed(rest, category) by {
          if i :| 0 <= i < |counts| && counts[i].category == category {
            assert rest[i - 1].category == category;
          }
        }
      }
    }
  }

  ghost predicate Listed(counts: seq<Count>, category: string) {
    exists i :: 0 <= i < |counts| && counts[i].category == category
  }

  lemma ListsOneMore(had: seq<Count>, tickets: seq<Ticket>)
    requires tickets != [] && Lists(had, tickets[..|tickets| - 1])
    ensures Lists(CountOne(had, tickets[|tickets| - 1].category), tickets)
  {
    hide CountOne, WithCategory, SumCounts, Listed;
    var before, last := tickets[..|tickets| - 1], tickets[|tickets| - 1].category;
    CountedOne(had, last);
    var r := CountOne(had, last);
    forall i | 0 <= i < |r|
      ensures r[i].n == WithCategory(tickets, r[i].category) > 0
    {
      WithCategoryMore(tickets, r[i].category);
      if i < |had| {
        assert had[i].n == WithCategory(before, had[i].category) > 0;
        ListedAt(had, i);
      }
    }
    forall category | WithCategory(tickets, category) > 0
      ensures Listed(r, category)
    {
      WithCategoryMore(tickets, category);
      ListedStays(had, r, category);
      if !Listed(had, category) {
        ListedAt(r, |had|);
      }
    }
    forall i | 0 <= i < |had|
      ensures Listed(had, had[i].category)
    {
      ListedAt(had, i);
    }
  }

  lemma WithCategoryMore(tickets: seq<Ticket>, category: string)
    requires tickets != []
    ensures WithCategory(tickets, category)
         == WithCategory(tickets[..|tickets| - 1], category) + if tickets[|tickets| - 1].category == category then 1 else 0
  {
  }

  lemma ListedAt(counts: seq<Count>, i: nat)
    requires i < |counts|
    ensures Listed(counts, counts[i].category)
  {
  }

  lemma ListedStays(had: seq<Count>, r: seq<Count>, category: string)
    requires |had| <= |r| && forall i | 0 <= i < |had| :: r[i].category == had[i].category
    ensures Listed(had, category) ==> Listed(r, category)
  {
    if i :| 0 <= i < |had| && had[i].category == category {
      assert r[i].category == category;
    }
  }

  lemma {:induction false} CountsAreExact(tickets: seq<Ticket>)
    ensures Lists(CategoryCounts(tickets), tickets)
    ensures SumCounts(CategoryCounts(tickets)) == |tickets|
  {
    hide CountOne, SumCounts, Lists;
    if tickets == [] {
      NoCounts();
    } else {
      var before, last := tickets[..|tickets| - 1], tickets[|tickets| - 1].category;
      CountsAreExact(before);
      DistinctIn(CategoryCounts(before), before);
      CountedOne(CategoryCounts(before), last);
      ListsOneMore(CategoryCounts(before), tickets);
    }
  }

  lemma DistinctIn(counts: seq<Count>, tickets: seq<Ticket>)
    requires Lists(counts, tickets)
    ensures forall i, j | 0 <= i < j < |counts| :: counts[i].category != counts[j].category
  {
  }

  lemma NoCounts()
    ensures Lists([], []) && SumCounts([]) == 0
  {
  }

  lemma {:induction false} InsertedSame(sorted: seq<Count>, c: Count)
    ensures var r := InsertCount(sorted, c);
            multiset(r) == multiset(sorted) + multiset{c} && SumCounts(r) == SumCounts(sorted) + c.n
  {
    if sorted == [] || c.n > sorted[0].n {
      assert InsertCount(sorted, c)[1..] == sorted;
    } else {
      InsertedSame(sorted[1..], c);
      assert sorted == [sorted[0]] + sorted[1..];
      assert InsertCount(sorted, c)[1..] == InsertCount(sorted[1..], c);
    }
  }

  ghost predicate Descending(counts: seq<Count>) { forall i, j | 0 <= i < j < |counts| :: counts[i].n >= counts[j].n }

  lemma {:induction false} InsertedInOrder(sorted: seq<Count>, c: Count, top: nat)
    requires Descending(sorted) && c.n <= top && (sorted != [] ==> sorted[0].n <= top)
    ensures var r := InsertCount(sorted, c); Descending(r) && r[0].n <= top
  {
    if sorted != [] && c.n <= sorted[0].n {
      InsertedInOrder(sorted[1..], c, sorted[0].n);
    }
  }

  lemma {:induction false} SumOfMore(counts: seq<Count>, c: Count)
    ensures SumCounts(counts + [c]) == SumCounts(counts) + c.n
  {
    if counts != [] {
      assert (counts + [c])[1..] == counts[1..] + [c];
      SumOfMore(counts[1..], c);
    }
  }

  lemma {:induction false} MostCommonFirst(counts: seq<Count>)
    ensures var r := MostCommon(counts);
            Descending(r) && multiset(r) == multiset(counts) && SumCounts(r) == SumCounts(counts)
  {
    if counts != [] {
      var before, last := counts[..|counts| - 1], counts[|counts| - 1];
      assert counts == before + [last];
      MostCommonFirst(before);
      var sorted := MostCommon(before);
      InsertedInOrder(sorted, last, if sorted != [] && sorted[0].n > last.n then sorted[0].n else last.n);
      InsertedSame(sorted, last);
      SumOfMore(before, last);
    }
  }

  /** The backlog by category lists each category of an open ticket with its number of open tickets and no other, the
      most common first, and adds up to the open tickets. */
  lemma CategoriesAddUp(tickets: seq<Ticket>, changes: seq<Change>, costs: seq<Cost>, allowed: Option<seq<string>>,
                        range: Range, tz: int)
    ensures var o, open := OverviewOf(tickets, changes, costs, allowed, range, tz), OpenTickets(tickets, allowed);
            && SumCounts(o.categories) == o.openCount
            && Descending(o.categories)
            && (forall c :: c in o.categories <==> c.n == WithCategory(open, c.category) > 0)
  {
    hide WithCategory, OpenTickets, TrendOf, ReceivedIn, ResolvedIn, Spend, SumCounts, MostCommon, CategoryCounts;
    var open := OpenTickets(tickets, allowed);
    var counts := CategoryCounts(open);
    var r := MostCommon(counts);
    CountsAreExact(open);
    MostCommonFirst(counts);
    assert forall c :: c in multiset(r) <==> c in r;
    assert forall c :: c in multiset(counts) <==> c in counts;
    forall c: Count
      ensures c in counts <==> c.n == WithCategory(open, c.category) > 0
    {
      if WithCategory(open, c.category) > 0 {
        var i :| 0 <= i < |counts| && counts[i].category == c.category;
        assert counts[i] in counts;
      }
    }
  }

  /** Spending adds up over adjoining ranges. */
  lemma {:induction false} SpendAddsUp(costs: seq<Cost>, tickets: seq<Ticket>, allowed: Option<seq<string>>, first: int,
                                       mid: int, last: int)
    requires first <= mid + 1 && mid <= last
    ensures Spend(costs, tickets, allowed, first, last)
         == Spend(costs, tickets, allowed, first, mid) + Spend(costs, tickets, allowed, mid + 1, last)
  {
    hide TicketInScope;
    if costs != [] {
      SpendAddsUp(costs[..|costs| - 1], tickets, allowed, first, mid, last);
    }
  }
}
