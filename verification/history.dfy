/**
  The historical purchase table of the Telegram generators: for each sampled
  user, one to three purchases at pairwise distinct instants of the history
  year, each with a plan, a purchase channel and the plan's price.

  The three versions share this loop; they differ only in the plan weights
  (uniform in versions 2 and 3, 15/25/60 percent in version 4).
 */
module History {
  import opened Draws
  import opened Weighted
  import opened Subscription
  import opened Clock

  /** `np.random.choice([1, 2, 3], p=[0.6, 0.3, 0.1])`. */
  const PurchaseCountWeights: seq<nat> := [600, 300, 100]

  /** `np.random.choice(premium_types)`: uniform. */
  const UniformPlanWeights: seq<nat> := [1, 1, 1]

  /** `np.random.choice(premium_types, p=[0.15, 0.25, 0.60])`. */
  const SkewedPlanWeights: seq<nat> := [150, 250, 600]

  /** `np.random.choice(["in-app", "website"], p=[0.8, 0.2])`. */
  const SourceWeights: seq<nat> := [800, 200]

  const Sources: seq<Source> := [InApp, Website]

  lemma WeightTablesAreDistributions()
    ensures IsDistribution(PurchaseCountWeights)
    ensures IsDistribution(SkewedPlanWeights)
    ensures IsDistribution(SourceWeights)
    ensures Sum(UniformPlanWeights) == 3
  {
  }

  /** `purchase_source` from draw p: in-app for 80 of every 100 residues, website otherwise. */
  function SourceAt(s: Stream, p: nat): (src: Source)
    ensures src == InApp <==> s(p) % 1000 < 800
  {
    WeightTablesAreDistributions();
    var x := s(p) % Sum(SourceWeights);
    var i := Pick(SourceWeights, x);
    assert Sum(SourceWeights[..1]) == 800;
    assert i == 0 <==> x < 800;
    Sources[i]
  }

  /** A plan weight vector the loop can draw from. */
  predicate PlanWeights(w: seq<nat>)
  {
    |w| == 3 && Sum(w) > 0
  }

  /** A candidate `purchase_date`: a day of the year from `base`, then a second of that day. */
  function CandidateAt(base: int, s: Stream, p: nat): (t: int)
    ensures base <= t < base + 365 * Day
  {
    base + IntAt(s, p, 0, 365) * Day + IntAt(s, p + 1, 0, Day)
  }

  /**
    `while purchase_date in purchase_dates`: candidates are drawn until one
    differs from every earlier date of the user. The loop only ends when the
    draws cooperate, so the model gives up (None) after `fuel` redraws.
   */
  function FreshDate(base: int, used: seq<int>, s: Stream, p: nat, fuel: nat): (r: Option<Drawn<int>>)
    ensures r.Some? ==> r.value.value !in used && base <= r.value.value < base + 365 * Day
    ensures r.Some? ==> r.value.next >= p + 2
    decreases fuel
  {
    var t := CandidateAt(base, s, p);
    if t !in used then Some(Drawn(t, p + 2))
    else if fuel == 0 then None
    else FreshDate(base, used, s, p + 2, fuel - 1)
  }

  predicate DistinctTimes(rows: seq<Purchase>)
  {
    forall i, j :: 0 <= i < j < |rows| ==> rows[i].time != rows[j].time
  }

  /** A history row of `user`: in the history year, priced by the plan table. */
  predicate HistoryRow(r: Purchase, user: int, base: int)
  {
    r.user == user && base <= r.time < base + 365 * Day && r.price == Price(r.plan)
  }

  /** The rows of one purchase: plan, fresh date, channel; `purchase_price` from the plan. */
  function PurchaseAt(user: int, base: int, planWeights: seq<nat>, used: seq<int>, s: Stream, p: nat, fuel: nat)
    : (r: Option<Drawn<Purchase>>)
    requires PlanWeights(planWeights)
    ensures r.Some? ==> HistoryRow(r.value.value, user, base) && r.value.value.time !in used
  {
    var plan := ChooseAt(s, p, Plans, planWeights);
    match FreshDate(base, used, s, p + 1, fuel)
    case None => None
    case Some(d) =>
      var source := SourceAt(s, d.next);
      Some(Drawn(Purchase(user, d.value, plan, source, Price(plan)), d.next + 1))
  }

  function Times(rows: seq<Purchase>): (ts: seq<int>)
    ensures |ts| == |rows|
    ensures forall i :: 0 <= i < |rows| ==> ts[i] == rows[i].time
  {
    seq(|rows|, i requires 0 <= i < |rows| => rows[i].time)
  }

  /** `n` more purchases of `user` after the rows `done`, every date distinct from all others. */
  function PurchasesFrom(user: int, base: int, planWeights: seq<nat>, done: seq<Purchase>, n: nat, s: Stream, p: nat, fuel: nat)
    : (r: Option<Drawn<seq<Purchase>>>)
    requires PlanWeights(planWeights)
    requires DistinctTimes(done)
    requires forall x <- done :: HistoryRow(x, user, base)
    ensures r.Some? ==> |r.value.value| == |done| + n
    ensures r.Some? ==> DistinctTimes(r.value.value)
    ensures r.Some? ==> forall x <- r.value.value :: HistoryRow(x, user, base)
    decreases n
  {
    if n == 0 then
      Some(Drawn(done, p))
    else
      match PurchaseAt(user, base, planWeights, Times(done), s, p, fuel)
      case None => None
      case Some(d) =>
        var row := d.value;
        assert forall i :: 0 <= i < |done| ==> done[i].time != row.time by {
          forall i | 0 <= i < |done|
            ensures done[i].time != row.time
          {
            assert Times(done)[i] == done[i].time;
          }
        }
        PurchasesFrom(user, base, planWeights, done + [row], n - 1, s, d.next, fuel)
  }

  /**
    The purchases of one sampled user: one to three rows, at pairwise distinct
    instants of the history year, each priced by its plan. None when some
    redraw loop did not find a fresh date within `fuel` attempts.
   */
  function UserHistory(user: int, base: int, planWeights: seq<nat>, s: Stream, p: nat, fuel: nat)
    : (r: Option<Drawn<seq<Purchase>>>)
    requires PlanWeights(planWeights)
    ensures r.Some? ==> 1 <= |r.value.value| <= 3
    ensures r.Some? ==> DistinctTimes(r.value.value)
    ensures r.Some? ==> forall x <- r.value.value :: HistoryRow(x, user, base)
  {
    WeightTablesAreDistributions();
    var n := ChooseAt(s, p, [1, 2, 3], PurchaseCountWeights);
    PurchasesFrom(user, base, planWeights, [], n, s, p + 1, fuel)
  }

  /** With fresh candidates the redraw loop never needs to retry. */
  lemma FreshFirstCandidate(base: int, used: seq<int>, s: Stream, p: nat, fuel: nat)
    requires CandidateAt(base, s, p) !in used
    ensures FreshDate(base, used, s, p, fuel) == Some(Drawn(CandidateAt(base, s, p), p + 2))
  {
  }

  /** The history table: each sampled user's rows, users in sample order. */
  function HistoricalTable(users: seq<int>, base: int, planWeights: seq<nat>, s: Stream, p: nat, fuel: nat)
    : (r: Option<Drawn<seq<Purchase>>>)
    requires PlanWeights(planWeights)
    ensures r.Some? ==> forall x <- r.value.value :: x.user in users && x.price == Price(x.plan)
    ensures r.Some? ==> forall u <- users :: 1 <= |OfUser(r.value.value, u)|
    decreases |users|
  {
    if |users| == 0 then
      Some(Drawn([], p))
    else
      match UserHistory(users[0], base, planWeights, s, p, fuel)
      case None => None
      case Some(mine) =>
        match HistoricalTable(users[1..], base, planWeights, s, mine.next, fuel)
        case None => None
        case Some(rest) =>
          OfUserAppend(mine.value, rest.value, users);
          assert forall x <- mine.value + rest.value :: x in mine.value || x in rest.value;
          Some(Drawn(mine.value + rest.value, rest.next))
  }

  lemma OfUserAppend(mine: seq<Purchase>, rest: seq<Purchase>, users: seq<int>)
    requires |users| > 0 && |mine| >= 1 && forall x <- mine :: x.user == users[0]
    requires forall u <- users[1..] :: 1 <= |OfUser(rest, u)|
    ensures forall u <- users :: 1 <= |OfUser(mine + rest, u)|
  {
    forall u <- users
      ensures 1 <= |OfUser(mine + rest, u)|
    {
      OfUserConcat(mine, rest, u);
      if u == users[0] {
        OfUserOwn(mine, u);
      } else {
        assert u in users[1..];
      }
    }
  }

  lemma {:induction false} OfUserConcat(a: seq<Purchase>, b: seq<Purchase>, u: int)
    ensures OfUser(a + b, u) == OfUser(a, u) + OfUser(b, u)
    decreases |a|
  {
    if |a| > 0 {
      assert (a + b)[1..] == a[1..] + b;
      OfUserConcat(a[1..], b, u);
    } else {
      assert a + b == b;
    }
  }

  lemma {:induction false} OfUserOwn(rows: seq<Purchase>, u: int)
    requires forall x <- rows :: x.user == u
    ensures OfUser(rows, u) == rows
    decreases |rows|
  {
    if |rows| > 0 {
      assert forall x <- rows[1..] :: x in rows;
      OfUserOwn(rows[1..], u);
    }
  }
}
