/**
  Subscription period resolver and point-in-time coverage query.

  Purchase rows are sorted by (user, timestamp) and folded in that order with
  a map from user to the end of that user's current coverage. Consecutive
  plans of one user stack: a plan bought while an earlier one is still running
  starts when the earlier one ends. A user is covered at an instant T when
  some purchase made at or before T has a resolved end strictly after T.

  The scripts of versions 2 and 3 do not stack: each row's end is its own
  timestamp plus the plan's months. Both resolutions are modelled here.

  Calendar months (`DateOffset(months=m)`) are left abstract: callers supply
  a month shift that moves every instant strictly forward for a positive
  number of months. Nothing else about the calendar is assumed (a month
  shift clamps the day of month, so it is not even monotone in the instant).
 */
module Subscription {
  import opened Draws
  import Sorting

  datatype Plan = ThreeMonths | SixMonths | TwelveMonths

  datatype Source = InApp | Website

  /** One row of the purchase table. */
  datatype Purchase = Purchase(user: int, time: int, plan: Plan, source: Source, price: nat)

  /** A purchase row with its resolved `subscription_end` column. */
  datatype Resolved = Resolved(row: Purchase, end: int)

  /** A coverage interval [start, end). */
  datatype Interval = Interval(start: int, end: int)

  const Plans: seq<Plan> := [ThreeMonths, SixMonths, TwelveMonths]

  /** The plan-to-months table of the resolver. */
  function Months(plan: Plan): nat
  {
    match plan
    case ThreeMonths => 3
    case SixMonths => 6
    case TwelveMonths => 12
  }

  /** The price table `price_by_type`, in roubles. */
  function Price(plan: Plan): nat
  {
    match plan
    case ThreeMonths => 899
    case SixMonths => 1690
    case TwelveMonths => 3190
  }

  /** Longer plans last longer and cost more, and every plan lasts. */
  lemma PlanTableOrdered(a: Plan, b: Plan)
    ensures Months(a) > 0
    ensures Months(a) < Months(b) <==> Price(a) < Price(b)
    ensures Months(a) == Months(b) <==> a == b
  {
  }

  /** `instant + DateOffset(months=m)`. */
  type MonthShift = (int, nat) -> int

  ghost predicate IsMonthShift(add: MonthShift)
  {
    forall t: int, m: nat :: 0 < m ==> t < add(t, m)
  }

  function Max(a: int, b: int): int
  {
    if a < b then b else a
  }

  // ---------------------------------------------------------------------------
  // Stacked resolution (version 4)

  function RowKey(p: Purchase): Sorting.Key
  {
    (p.user, p.time)
  }

  /**
    The fold of `calculate_subscription_periods` over already sorted rows,
    starting from the map `ends` of current coverage ends: one end per row.
   */
  function ResolveFrom(rows: seq<Purchase>, ends: map<int, int>, add: MonthShift): (r: seq<int>)
    ensures |r| == |rows|
    decreases |rows|
  {
    if |rows| == 0 then
      []
    else
      var row := rows[0];
      var prev := if row.user in ends then ends[row.user] else row.time;
      var e := add(Max(row.time, prev), Months(row.plan));
      [e] + ResolveFrom(rows[1..], ends[row.user := e], add)
  }

  function Rows(table: seq<Resolved>): (r: seq<Purchase>)
    ensures |r| == |table|
    ensures forall i :: 0 <= i < |r| ==> r[i] == table[i].row
  {
    seq(|table|, i requires 0 <= i < |table| => table[i].row)
  }

  function Ends(table: seq<Resolved>): (r: seq<int>)
    ensures |r| == |table|
    ensures forall i :: 0 <= i < |r| ==> r[i] == table[i].end
  {
    seq(|table|, i requires 0 <= i < |table| => table[i].end)
  }

  /**
    `calculate_subscription_periods`: the purchase table sorted by
    (user, timestamp), each row carrying its resolved end.
   */
  function CalculateSubscriptionPeriods(rows: seq<Purchase>, add: MonthShift): (r: seq<Resolved>)
    ensures |r| == |rows|
    ensures Sorting.SortedBy(Rows(r), RowKey)
    ensures multiset(Rows(r)) == multiset(rows)
  {
    var sorted := Sorting.SortBy(rows, RowKey);
    var ends := ResolveFrom(sorted, map[], add);
    var r := seq(|sorted|, i requires 0 <= i < |sorted| => Resolved(sorted[i], ends[i]));
    assert Rows(r) == sorted;
    r
  }

  // ---------------------------------------------------------------------------
  // The per-user reference: stacking one user's purchases in time order

  /**
    Coverage intervals of one user's purchases, taken in order, when the
    previous coverage ended at `prev` (None before the first purchase).
   */
  function Stack(prev: Option<int>, rows: seq<Purchase>, add: MonthShift): (r: seq<Interval>)
    requires IsMonthShift(add)
    ensures |r| == |rows|
    ensures forall i :: 0 <= i < |r| ==> rows[i].time <= r[i].start < r[i].end
    ensures forall i :: 0 < i < |r| ==> r[i].start == Max(rows[i].time, r[i - 1].end)
    ensures forall i :: 0 <= i < |r| ==> r[i].end == add(r[i].start, Months(rows[i].plan))
    ensures |r| > 0 && prev.Some? ==> r[0].start >= prev.value
    decreases |rows|
  {
    if |rows| == 0 then
      []
    else
      var start := if prev.Some? then Max(rows[0].time, prev.value) else rows[0].time;
      var iv := Interval(start, add(start, Months(rows[0].plan)));
      [iv] + Stack(Some(iv.end), rows[1..], add)
  }

  function IntervalEnds(ivs: seq<Interval>): (r: seq<int>)
    ensures |r| == |ivs|
    ensures forall i :: 0 <= i < |r| ==> r[i] == ivs[i].end
  {
    if |ivs| == 0 then [] else [ivs[0].end] + IntervalEnds(ivs[1..])
  }

  /** A user's first interval starts at the user's own first purchase. */
  lemma FirstIntervalStartsAtPurchase(rows: seq<Purchase>, add: MonthShift)
    requires IsMonthShift(add)
    requires |rows| > 0
    ensures Stack(None, rows, add)[0].start == rows[0].time
  {
  }

  /**
    Intervals of one user never overlap: every interval starts at or after
    the end of every earlier one, and the ends strictly increase.
   */
  lemma {:induction false} StackDisjoint(prev: Option<int>, rows: seq<Purchase>, add: MonthShift, i: nat, j: nat)
    requires IsMonthShift(add)
    requires i < j < |rows|
    ensures Stack(prev, rows, add)[i].end <= Stack(prev, rows, add)[j].start
    ensures Stack(prev, rows, add)[i].end < Stack(prev, rows, add)[j].end
    decreases j - i
  {
    var r := Stack(prev, rows, add);
    assert r[j].start == Max(rows[j].time, r[j - 1].end) && r[j].start < r[j].end;
    if i + 1 < j {
      StackDisjoint(prev, rows, add, i, j - 1);
      assert r[j - 1].end <= r[j].start;
    }
  }

  /** The rows of user `u`, in table order. */
  function OfUser(rows: seq<Purchase>, u: int): (r: seq<Purchase>)
    ensures forall i :: 0 <= i < |r| ==> r[i].user == u
    ensures |r| <= |rows|
  {
    if |rows| == 0 then []
    else (if rows[0].user == u then [rows[0]] else []) + OfUser(rows[1..], u)
  }

  /** The values of `vals` at the positions of user `u`'s rows. */
  function AtUser<V>(rows: seq<Purchase>, vals: seq<V>, u: int): (r: seq<V>)
    requires |vals| == |rows|
    ensures |r| == |OfUser(rows, u)|
  {
    if |rows| == 0 then []
    else (if rows[0].user == u then [vals[0]] else []) + AtUser(rows[1..], vals[1..], u)
  }

  function Get(ends: map<int, int>, u: int): Option<int>
  {
    if u in ends then Some(ends[u]) else None
  }

  /** One step of the fold: the head row's end, then the rest with the updated map. */
  lemma ResolveStep(rows: seq<Purchase>, ends: map<int, int>, add: MonthShift)
    requires |rows| > 0
    ensures var row := rows[0];
            var e := add(if row.user in ends then Max(row.time, ends[row.user]) else row.time, Months(row.plan));
            ResolveFrom(rows, ends, add) == [e] + ResolveFrom(rows[1..], ends[row.user := e], add)
  {
  }

  /** One step of stacking: the head interval's end, then the rest stacked after it. */
  lemma StackStep(prev: Option<int>, row: Purchase, mine: seq<Purchase>, add: MonthShift)
    requires IsMonthShift(add)
    ensures var start := if prev.Some? then Max(row.time, prev.value) else row.time;
            var e := add(start, Months(row.plan));
            IntervalEnds(Stack(prev, [row] + mine, add)) == [e] + IntervalEnds(Stack(Some(e), mine, add))
  {
    assert ([row] + mine)[1..] == mine;
  }

  lemma AtUserStep<V>(rows: seq<Purchase>, v: V, vals: seq<V>, u: int)
    requires |rows| > 0 && |vals| + 1 == |rows|
    ensures AtUser(rows, [v] + vals, u) == (if rows[0].user == u then [v] else []) + AtUser(rows[1..], vals, u)
  {
    assert ([v] + vals)[1..] == vals;
  }

  /**
    Because the fold's state is keyed by user, the ends it gives user `u`'s
    rows are exactly the stacking of `u`'s own rows: other users' purchases
    have no influence.
   */
  lemma {:induction false} ResolveIsPerUserStack(rows: seq<Purchase>, ends: map<int, int>, add: MonthShift, u: int)
    requires IsMonthShift(add)
    ensures AtUser(rows, ResolveFrom(rows, ends, add), u) == IntervalEnds(Stack(Get(ends, u), OfUser(rows, u), add))
    decreases |rows|
  {
    if |rows| > 0 {
      var row := rows[0];
      var e := add(if row.user in ends then Max(row.time, ends[row.user]) else row.time, Months(row.plan));
      var ends' := ends[row.user := e];
      var rest := ResolveFrom(rows[1..], ends', add);
      var head := if row.user == u then [e] else [];
      calc {
        AtUser(rows, ResolveFrom(rows, ends, add), u);
        { ResolveStep(rows, ends, add); }
        AtUser(rows, [e] + rest, u);
        { AtUserStep(rows, e, rest, u); }
        head + AtUser(rows[1..], rest, u);
        { ResolveIsPerUserStack(rows[1..], ends', add, u); }
        head + IntervalEnds(Stack(Get(ends', u), OfUser(rows[1..], u), add));
      }
      if row.user == u {
        var mine := OfUser(rows[1..], u);
        assert OfUser(rows, u) == [row] + mine;
        assert Get(ends', u) == Some(e);
        StackStep(Get(ends, u), row, mine, add);
      } else {
        assert OfUser(rows, u) == OfUser(rows[1..], u);
        assert Get(ends', u) == Get(ends, u);
      }
    }
  }

  ghost predicate TimeOrdered(rows: seq<Purchase>)
  {
    forall i, j :: 0 <= i < j < |rows| ==> rows[i].time <= rows[j].time
  }

  /** One user's rows of a table sorted by (user, timestamp) are in time order. */
  lemma {:induction false} OfUserOfSortedIsTimeOrdered(rows: seq<Purchase>, u: int)
    requires Sorting.SortedBy(rows, RowKey)
    ensures TimeOrdered(OfUser(rows, u))
    ensures multiset(OfUser(rows, u)) <= multiset(rows)
    decreases |rows|
  {
    if |rows| > 0 {
      assert Sorting.SortedBy(rows[1..], RowKey);
      OfUserOfSortedIsTimeOrdered(rows[1..], u);
      assert rows == [rows[0]] + rows[1..];
      var rest := OfUser(rows[1..], u);
      if rows[0].user == u {
        HeadPrecedesUserRows(rows, u, rest);
        assert OfUser(rows, u) == [rows[0]] + rest;
      }
    }
  }

  /** In a sorted table, the head row is no later than any later row of its own user. */
  lemma HeadPrecedesUserRows(rows: seq<Purchase>, u: int, rest: seq<Purchase>)
    requires Sorting.SortedBy(rows, RowKey) && |rows| > 0 && rows[0].user == u
    requires multiset(rest) <= multiset(rows[1..]) && forall k :: 0 <= k < |rest| ==> rest[k].user == u
    ensures forall k :: 0 <= k < |rest| ==> rows[0].time <= rest[k].time
  {
    forall k | 0 <= k < |rest|
      ensures rows[0].time <= rest[k].time
    {
      assert rest[k] in multiset(rows[1..]);
      var m :| 0 <= m < |rows[1..]| && rows[1..][m] == rest[k];
      assert Sorting.KeyLeq(RowKey(rows[0]), RowKey(rows[1 + m]));
    }
  }

  /**
    The resolver's result per user: the ends the table gives user `u`'s rows
    are the stacked intervals of `u`'s purchases taken in time order, with
    the first starting at `u`'s first purchase.
   */
  lemma PeriodsArePerUserStacks(rows: seq<Purchase>, add: MonthShift, u: int)
    requires IsMonthShift(add)
    ensures var table := CalculateSubscriptionPeriods(rows, add);
            && TimeOrdered(OfUser(Rows(table), u))
            && AtUser(Rows(table), Ends(table), u) == IntervalEnds(Stack(None, OfUser(Rows(table), u), add))
  {
    var sorted := Sorting.SortBy(rows, RowKey);
    var table := CalculateSubscriptionPeriods(rows, add);
    assert Rows(table) == sorted;
    assert Ends(table) == ResolveFrom(sorted, map[], add);
    ResolveIsPerUserStack(sorted, map[], add, u);
    OfUserOfSortedIsTimeOrdered(sorted, u);
  }

  // ---------------------------------------------------------------------------
  // The point-in-time query

  /** The filter `timestamp <= T and subscription_end > T`: closed-open. */
  predicate Covers(x: Resolved, t: int)
  {
    x.row.time <= t < x.end
  }

  /** Users of the rows covering `t`, in table order, repeats included. */
  function CoveringUsers(table: seq<Resolved>, t: int): (r: seq<int>)
    ensures forall u :: u in r <==> exists i :: 0 <= i < |table| && table[i].row.user == u && Covers(table[i], t)
  {
    if |table| == 0 then []
    else
      var rest := CoveringUsers(table[1..], t);
      assert forall i :: 0 < i < |table| ==> table[i] == table[1..][i - 1];
      (if Covers(table[0], t) then [table[0].row.user] else []) + rest
  }

  /** `.unique()`: the values of `xs` not in `seen`, each once, after `seen`. */
  function Unique(xs: seq<int>, seen: seq<int>): (r: seq<int>)
    requires Sorting.Distinct(seen)
    ensures Sorting.Distinct(r)
    ensures forall u :: u in r <==> u in seen || u in xs
    ensures |r| >= |seen| && r[..|seen|] == seen
    decreases |xs|
  {
    if |xs| == 0 then seen
    else if xs[0] in seen then Unique(xs[1..], seen)
    else Unique(xs[1..], seen + [xs[0]])
  }

  /** The users that are premium at instant `t`: each covered user once. */
  function ActivePremium(table: seq<Resolved>, t: int): (r: seq<int>)
    ensures Sorting.Distinct(r)
    ensures forall u :: u in r <==> exists i :: 0 <= i < |table| && table[i].row.user == u && Covers(table[i], t)
  {
    Unique(CoveringUsers(table, t), [])
  }

  /** The refreshed `is_premium` column value of user `u`. */
  function PremiumFlag(table: seq<Resolved>, t: int, u: int): (flag: int)
    ensures flag == 0 || flag == 1
    ensures flag == 1 <==> exists i :: 0 <= i < |table| && table[i].row.user == u && table[i].row.time <= t < table[i].end
  {
    if u in ActivePremium(table, t) then 1 else 0
  }

  /** A purchase whose coverage ends exactly at `t` does not cover `t`. */
  lemma ExpiryInstantNotCovered(table: seq<Resolved>, t: int, u: int, j: nat)
    requires j < |table| && table[j].row.user == u && table[j].end == t
    requires forall i :: 0 <= i < |table| && table[i].row.user == u ==> i == j
    ensures u !in ActivePremium(table, t)
    ensures PremiumFlag(table, t, u) == 0
  {
  }

  /**
    Within one user's time-ordered purchases, "some purchase made at or before
    T has not yet ended" is the same as "T lies inside one of the stacked
    coverage intervals".
   */
  lemma CoveredIffInsideInterval(rows: seq<Purchase>, add: MonthShift, t: int)
    requires IsMonthShift(add)
    requires TimeOrdered(rows)
    ensures var ivs := Stack(None, rows, add);
            (exists i :: 0 <= i < |rows| && rows[i].time <= t < ivs[i].end)
            <==> (exists i :: 0 <= i < |rows| && ivs[i].start <= t < ivs[i].end)
  {
    var ivs := Stack(None, rows, add);
    if i :| 0 <= i < |rows| && rows[i].time <= t < ivs[i].end {
      InsideSomeInterval(rows, add, t, i);
    }
  }

  lemma {:induction false} InsideSomeInterval(rows: seq<Purchase>, add: MonthShift, t: int, i: nat)
    requires IsMonthShift(add)
    requires TimeOrdered(rows)
    requires i < |rows|
    requires rows[i].time <= t < Stack(None, rows, add)[i].end
    ensures exists k :: 0 <= k <= i && Stack(None, rows, add)[k].start <= t < Stack(None, rows, add)[k].end
    decreases i
  {
    var ivs := Stack(None, rows, add);
    if t < ivs[i].start {
      // the start was pushed back to the previous end, which is after t
      assert i > 0;
      assert ivs[i].start == ivs[i - 1].end;
      assert rows[i - 1].time <= rows[i].time;
      InsideSomeInterval(rows, add, t, i - 1);
    }
  }

  /**
    Scenario: a single purchase at `d` of the shortest plan covers exactly the
    instants from `d` up to, not including, three months later.
   */
  lemma SinglePurchaseScenario(p: Purchase, add: MonthShift, t: int)
    requires IsMonthShift(add)
    requires p.plan == ThreeMonths
    ensures var table := CalculateSubscriptionPeriods([p], add);
            PremiumFlag(table, t, p.user) == 1 <==> p.time <= t < add(p.time, 3)
  {
    var table := CalculateSubscriptionPeriods([p], add);
    assert Sorting.SortBy([p], RowKey) == [p];
    assert table[0] == Resolved(p, add(Max(p.time, p.time), 3));
  }

  // ---------------------------------------------------------------------------
  // Non-stacked resolution (versions 2 and 3)

  /** `get_subscription_end`: the purchase time plus the plan's months. */
  function PlainEnd(p: Purchase, add: MonthShift): (e: int)
    requires IsMonthShift(add)
    ensures e > p.time
  {
    add(p.time, Months(p.plan))
  }

  /** The table with the non-stacked `subscription_end` column, in input order. */
  function PlainPeriods(rows: seq<Purchase>, add: MonthShift): (r: seq<Resolved>)
    requires IsMonthShift(add)
    ensures Rows(r) == rows
    ensures forall i :: 0 <= i < |r| ==> rows[i].time < r[i].end
  {
    var r := seq(|rows|, i requires 0 <= i < |rows| => Resolved(rows[i], PlainEnd(rows[i], add)));
    assert Rows(r) == rows;
    r
  }

  /** Non-stacked coverage: covered at `t` iff some own purchase lies in [time, time + months). */
  lemma PlainCoverage(rows: seq<Purchase>, add: MonthShift, t: int, u: int)
    requires IsMonthShift(add)
    ensures u in ActivePremium(PlainPeriods(rows, add), t)
            <==> exists i :: 0 <= i < |rows| && rows[i].user == u && rows[i].time <= t < add(rows[i].time, Months(rows[i].plan))
  {
    var table := PlainPeriods(rows, add);
    if u in ActivePremium(table, t) {
      var i :| 0 <= i < |table| && table[i].row.user == u && Covers(table[i], t);
      assert Rows(table)[i] == rows[i];
    }
  }

  /** For a user with a single purchase the stacked and the plain end agree. */
  lemma SinglePurchaseStackIsPlain(p: Purchase, add: MonthShift)
    requires IsMonthShift(add)
    ensures Stack(None, [p], add)[0].end == PlainEnd(p, add)
  {
  }
}
