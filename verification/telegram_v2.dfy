/**
  Version 2 of the Telegram log generator: a platform per user drawn by
  premium status, sessions without a platform column, and premium feature
  use recorded in a separate usage table, one to three rows per primary event
  of an enriched session, all at that event's timestamp.
 */
module TelegramV2 {
  import opened Draws
  import opened Clock
  import opened Weighted
  import opened Activity
  import opened Schedule
  import Subscription
  import History

  const Platforms: seq<Platform> := [IOS, Android, Desktop, Web]

  /** `p=[0.75, 0.15, 0.05, 0.05]` for premium users. */
  const PremiumPlatformWeights: seq<nat> := [750, 150, 50, 50]

  /** `p=[0.4, 0.3, 0.15, 0.15]` for the others. */
  const RegularPlatformWeights: seq<nat> := [400, 300, 150, 150]

  lemma PlatformWeightsAreDistributions()
    ensures IsDistribution(PremiumPlatformWeights) && IsDistribution(RegularPlatformWeights)
  {
  }

  /** The platform weight vector `assign_platform` uses for a user. */
  function PlatformWeights(premium: bool): (w: seq<nat>)
    ensures |w| == |Platforms| && IsDistribution(w)
    ensures forall i :: 0 <= i < |w| ==> w[i] > 0
    ensures premium ==> w[0] == 750
    ensures !premium ==> w[0] == 400
  {
    PlatformWeightsAreDistributions();
    if premium then PremiumPlatformWeights else RegularPlatformWeights
  }

  /**
    `assign_platform`: one weighted draw over iOS, Android, Desktop and Web,
    with the premium vector for premium users and the regular one otherwise.
   */
  function AssignPlatform(premium: bool, s: Stream, p: nat): (platform: Platform)
    ensures exists i :: 0 <= i < |Platforms| && Platforms[i] == platform && PlatformWeights(premium)[i] > 0
  {
    ChooseAt(s, p, Platforms, PlatformWeights(premium))
  }

  /** Both vectors give every platform some chance, and iOS the largest for premium users. */
  lemma AssignPlatformReachesEveryPlatform(premium: bool, platform: Platform)
    ensures exists s: Stream :: AssignPlatform(premium, s, 0) == platform
  {
    var w := PlatformWeights(premium);
    var i := match platform case IOS => 0 case Android => 1 case Desktop => 2 case Web => 3;
    PositiveWeightReachable(Platforms, w, i);
    var d: nat :| Choose(Platforms, w, d) == Platforms[i];
    var s: Stream := _ => d;
    assert AssignPlatform(premium, s, 0) == platform;
  }

  lemma PremiumUsersFavourIOS()
    ensures forall i :: 0 < i < 4 ==> PremiumPlatformWeights[i] < PremiumPlatformWeights[0]
    ensures PremiumPlatformWeights[0] > RegularPlatformWeights[0]
  {
  }

  // ---------------------------------------------------------------------------
  // Session events and premium usage

  /** A row of `premium_usage_logs`. */
  datatype Usage = Usage(user: int, time: int, feature: Feature)

  /** What one session contributes: its log rows and its premium usage rows. */
  datatype SessionOut = SessionOut(events: seq<LogEvent>, usage: seq<Usage>)

  /** A version 2 log row of session `sid` of user `u` on `date`: primary, no platform column. */
  predicate InSession(e: LogEvent, u: User, sid: nat, date: int)
  {
    && e.user == u.id && e.session == sid && e.platform == None
    && date <= e.time < date + Day
    && e.kind.Primary? && e.kind.event != BuyPremium
  }

  /** `k` usage rows of user `u` at instant `t`, their features drawn from p on. */
  function UsageRows(u: User, t: int, k: nat, s: Stream, p: nat): (r: seq<Usage>)
    ensures |r| == k
    ensures forall x <- r :: x.user == u.id && x.time == t && x.feature in PremiumFeatures
    decreases k
  {
    if k == 0 then [] else [Usage(u.id, t, PremiumFeatureAt(s, p))] + UsageRows(u, t, k - 1, s, p + 1)
  }

  /** Every usage row shares its user and timestamp with a log row. */
  predicate UsageBesideEvents(usage: seq<Usage>, events: seq<LogEvent>)
  {
    forall x <- usage :: exists e <- events :: e.user == x.user && e.time == x.time
  }

  /** A primary row: its type drawn at p, its second of the day drawn at p + 1. */
  function PrimaryAt(u: User, date: int, sid: nat, s: Stream, p: nat): (e: LogEvent)
    ensures InSession(e, u, sid, date)
  {
    LogEvent(u.id, sid, date + IntAt(s, p + 1, 0, Day), Primary(EventTypeAt(s, p)), None)
  }

  /**
    What a session with `count` primary rows contributes: every row in the
    session, and usage rows only when enriched, one to three per primary row,
    each beside a log row.
   */
  predicate SessionOutput(o: SessionOut, u: User, sid: nat, date: int, enrich: bool, count: nat)
  {
    && |o.events| == count
    && (forall e <- o.events :: InSession(e, u, sid, date))
    && (!enrich ==> o.usage == [])
    && (enrich ==> count <= |o.usage| <= 3 * count)
    && UsageBesideEvents(o.usage, o.events)
  }

  /**
    The events of one session after its count is known: each primary row
    takes a type draw and a second-of-day draw; when the session is enriched
    it also takes a usage count in [1, 3] and that many feature draws.
   */
  function EventsFrom(u: User, date: int, sid: nat, enrich: bool, count: nat, s: Stream, p: nat)
    : (r: Drawn<SessionOut>)
    ensures SessionOutput(r.value, u, sid, date, enrich, count)
    ensures r.next >= p
    decreases count
  {
    if count == 0 then
      Drawn(SessionOut([], []), p)
    else
      var primary := PrimaryAt(u, date, sid, s, p);
      var k := if enrich then IntAt(s, p + 2, 1, 4) else 0;
      var mine := UsageRows(u, primary.time, k, s, p + 3);
      var rest := EventsFrom(u, date, sid, enrich, count - 1, s, p + 3 + k);
      UsageStep(primary, mine, rest.value, u, sid, date, enrich, count);
      Drawn(SessionOut([primary] + rest.value.events, mine + rest.value.usage), rest.next)
  }

  lemma UsageStep(primary: LogEvent, mine: seq<Usage>, rest: SessionOut, u: User, sid: nat, date: int, enrich: bool, count: nat)
    requires count > 0 && InSession(primary, u, sid, date)
    requires forall x <- mine :: x.user == primary.user && x.time == primary.time
    requires if enrich then 1 <= |mine| <= 3 else mine == []
    requires SessionOutput(rest, u, sid, date, enrich, count - 1)
    ensures SessionOutput(SessionOut([primary] + rest.events, mine + rest.usage), u, sid, date, enrich, count)
  {
    var all := [primary] + rest.events;
    assert primary in all;
    forall x <- mine + rest.usage
      ensures exists e <- all :: e.user == x.user && e.time == x.time
    {
      if x !in mine {
        var e :| e in rest.events && e.user == x.user && e.time == x.time;
        assert e in all;
      }
    }
  }

  /**
    `generate_session_events` of version 2: the event count within the tier's
    bounds scaled by the multiplier, then the events. Usage rows are written
    only for a premium user with a multiplier above 1.0, one to three per
    primary row and at its timestamp.
   */
  function GenerateSessionEvents(u: User, date: int, sid: nat, m: Tenths, s: Stream, p: nat): (r: Drawn<SessionOut>)
    ensures EventBounds(u.tier, m).0 <= |r.value.events| <= EventBounds(u.tier, m).1
    ensures forall e <- r.value.events :: InSession(e, u, sid, date)
    ensures !Enriched(u, m) ==> r.value.usage == []
    ensures Enriched(u, m) ==> |r.value.events| <= |r.value.usage| <= 3 * |r.value.events|
    ensures UsageBesideEvents(r.value.usage, r.value.events)
    ensures r.next >= p
  {
    var count := EventsCountAt(s, p, u.tier, m);
    EventsFrom(u, date, sid, Enriched(u, m), count, s, p + 1)
  }

  // ---------------------------------------------------------------------------
  // Scheduled sessions

  /** A usage row inside an enriched planned session of `u`. */
  predicate UsageFromPlan(x: Usage, pl: SessionPlan, u: User)
  {
    x.user == u.id && Enriched(u, pl.mult) && pl.date <= x.time < pl.date + Day
  }

  /** A log row of a planned session of `u`. */
  predicate FromPlan(e: LogEvent, pl: SessionPlan, u: User)
  {
    InSession(e, u, pl.id, pl.date)
  }

  /** The rows of one planned session. */
  function PlannedSession(u: User, pl: SessionPlan, s: Stream, p: nat): (r: Drawn<SessionOut>)
    ensures forall e <- r.value.events :: FromPlan(e, pl, u)
    ensures forall x <- r.value.usage :: UsageFromPlan(x, pl, u)
    ensures !Enriched(u, pl.mult) ==> r.value.usage == []
    ensures r.next >= p
  {
    var out := GenerateSessionEvents(u, pl.date, pl.id, pl.mult, s, p);
    forall x <- out.value.usage
      ensures UsageFromPlan(x, pl, u)
    {
      var e :| e in out.value.events && e.user == x.user && e.time == x.time;
    }
    out
  }

  /** The rows of the planned sessions, one session after another. */
  function ExpandSessions(u: User, plans: seq<SessionPlan>, s: Stream, p: nat): (r: Drawn<SessionOut>)
    ensures forall e <- r.value.events :: exists pl <- plans :: FromPlan(e, pl, u)
    ensures forall x <- r.value.usage :: exists pl <- plans :: UsageFromPlan(x, pl, u)
    ensures (forall pl <- plans :: !Enriched(u, pl.mult)) ==> r.value.usage == []
    ensures r.next >= p
    decreases |plans|
  {
    if |plans| == 0 then
      Drawn(SessionOut([], []), p)
    else
      var first := PlannedSession(u, plans[0], s, p);
      var rest := ExpandSessions(u, plans[1..], s, first.next);
      assert forall e <- first.value.events + rest.value.events :: e in first.value.events || e in rest.value.events;
      assert forall x <- first.value.usage + rest.value.usage :: x in first.value.usage || x in rest.value.usage;
      assert forall q <- plans[1..] :: q in plans;
      assert plans[0] in plans;
      Drawn(SessionOut(first.value.events + rest.value.events, first.value.usage + rest.value.usage), rest.next)
  }

  /** What one user contributes to the three tables, and the next unused session id. */
  datatype UserLog = UserLog(events: seq<LogEvent>, purchases: seq<Subscription.Purchase>, usage: seq<Usage>, nextId: nat)

  /** Usage rows of a premium user never precede the purchase instant. */
  function SessionsAround(u: User, premiumDate: int, n: nat, s: Stream, p: nat, nextId: nat): (r: Drawn<SessionOut>)
    ensures forall e <- r.value.events :: e.user == u.id && e.kind.Primary? && e.kind.event != BuyPremium
    ensures forall x <- r.value.usage :: x.user == u.id && premiumDate <= x.time
  {
    var plans := PremiumSessions(premiumDate, 15, n, s, p, nextId);
    var out := ExpandSessions(u, plans.value, s, plans.next);
    forall x <- out.value.usage
      ensures premiumDate <= x.time
    {
      var pl :| pl in plans.value && UsageFromPlan(x, pl, u);
      NoEnrichmentBeforePurchase(u, premiumDate, 15, pl);
    }
    forall e <- out.value.events
      ensures e.user == u.id && e.kind.Primary? && e.kind.event != BuyPremium
    {
      var pl :| pl in plans.value && FromPlan(e, pl, u);
    }
    out
  }

  /**
    A premium user's share of the main loop: the purchase instant, the plan
    and channel draws, one `buy_premium` log row and one purchase row at that
    instant, then `n` sessions around it at 1.5 times the volume on and after
    the purchase.
   */
  function PremiumUserLogs(u: User, start: int, n: nat, s: Stream, p: nat, nextId: nat): (r: Drawn<UserLog>)
    requires u.premium
    ensures |r.value.purchases| == 1 && |r.value.events| >= 1
    ensures var buy := r.value.purchases[0];
            && buy.user == u.id && buy.price == Subscription.Price(buy.plan)
            && start + 5 * Day <= buy.time < start + 26 * Day
            && r.value.events[0] == LogEvent(u.id, nextId, buy.time, Primary(BuyPremium), None)
            && forall x <- r.value.usage :: x.user == u.id && buy.time <= x.time
    ensures forall e <- r.value.events[1..] :: e.user == u.id && e.kind.Primary? && e.kind.event != BuyPremium
    ensures r.value.nextId == nextId + 1 + n
  {
    var premiumDate := PurchaseInstant(start, s, p);
    var plan := ChooseAt(s, p + 2, Subscription.Plans, History.UniformPlanWeights);
    var channel := History.SourceAt(s, p + 3);
    var buy := LogEvent(u.id, nextId, premiumDate, Primary(BuyPremium), None);
    var row := Subscription.Purchase(u.id, premiumDate, plan, channel, Subscription.Price(plan));
    var out := SessionsAround(u, premiumDate, n, s, p + 4, nextId + 1);
    assert ([buy] + out.value.events)[1..] == out.value.events;
    Drawn(UserLog([buy] + out.value.events, [row], out.value.usage, nextId + 1 + n), out.next)
  }

  /** A regular user's share of the main loop: `n` baseline sessions in the first 31 days. */
  function RegularUserLogs(u: User, start: int, n: nat, s: Stream, p: nat, nextId: nat): (r: Drawn<UserLog>)
    ensures forall e <- r.value.events :: e.user == u.id && e.kind.Primary? && e.kind.event != BuyPremium
    ensures r.value.purchases == [] && r.value.usage == []
    ensures r.value.nextId == nextId + n
  {
    var plans := RegularSessions(start, n, s, p, nextId);
    var out := ExpandSessions(u, plans.value, s, plans.next);
    forall e <- out.value.events
      ensures e.user == u.id
    {
      var pl :| pl in plans.value && FromPlan(e, pl, u);
    }
    Drawn(UserLog(out.value.events, [], [], nextId + n), out.next)
  }

  /**
    One iteration of the main loop of version 2: the session count, then the
    premium or the regular user's rows. Only premium users get purchase and
    usage rows, and usage never precedes the purchase.
   */
  function UserLogs(u: User, start: int, s: Stream, p: nat, nextId: nat): (r: Drawn<UserLog>)
    ensures forall e <- r.value.events :: e.user == u.id
    ensures !u.premium ==> r.value.purchases == [] && r.value.usage == []
    ensures u.premium ==>
      && |r.value.purchases| == 1
      && forall x <- r.value.usage :: r.value.purchases[0].time <= x.time
    ensures r.value.nextId >= nextId
  {
    var n := SessionsCountAt(s, p, u.tier);
    if u.premium then
      var r := PremiumUserLogs(u, start, n, s, p + 1, nextId);
      assert forall e <- r.value.events :: e == r.value.events[0] || e in r.value.events[1..];
      r
    else
      RegularUserLogs(u, start, n, s, p + 1, nextId)
  }
}
