/**
  Version 3 of the Telegram log generator: independent weighted draws per
  session, one premium feature event beside every primary event of an
  enriched session, and sessions placed around the purchase date of premium
  users.
 */
module TelegramV3 {
  import opened Draws
  import opened Clock
  import opened Activity
  import opened Schedule

  /** A row of session `sid` of user `u` on `date`, logged with `platform`, never a drawn `buy_premium`. */
  predicate InSession(e: LogEvent, u: User, sid: nat, platform: Platform, date: int)
  {
    && e.user == u.id && e.session == sid && e.platform == Some(platform)
    && date <= e.time < date + Day
    && (e.kind.Primary? ==> e.kind.event != BuyPremium)
  }

  /** Every premium row directly follows a primary row and shares its timestamp. */
  predicate PremiumFollowsPrimary(es: seq<LogEvent>)
  {
    forall i :: 0 <= i < |es| && es[i].kind.Premium? ==>
      0 < i && es[i - 1].kind.Primary? && es[i - 1].time == es[i].time
  }

  /** Every primary row is directly followed by a premium row. */
  predicate PrimaryHasCompanion(es: seq<LogEvent>)
  {
    forall i :: 0 <= i < |es| && es[i].kind.Primary? ==> i + 1 < |es| && es[i + 1].kind.Premium?
  }

  /** A primary row: its type drawn at p, its second of the day drawn at p + 1. */
  function PrimaryAt(u: User, date: int, sid: nat, platform: Platform, s: Stream, p: nat): (e: LogEvent)
    ensures InSession(e, u, sid, platform, date) && e.kind.Primary?
  {
    LogEvent(u.id, sid, date + IntAt(s, p + 1, 0, Day), Primary(EventTypeAt(s, p)), Some(platform))
  }

  /**
    The rows of one session with `count` primary events: all in the session,
    premium rows only right after a primary row with its timestamp, and, when
    enriched, exactly one premium row beside each primary row.
   */
  predicate SessionRows(es: seq<LogEvent>, u: User, sid: nat, platform: Platform, date: int, enrich: bool, count: nat)
  {
    && |es| == (if enrich then 2 * count else count)
    && (forall e <- es :: InSession(e, u, sid, platform, date))
    && (!enrich ==> forall e <- es :: e.kind.Primary?)
    && PremiumFollowsPrimary(es)
    && (enrich ==> PrimaryHasCompanion(es))
  }

  /**
    The events of one session after its platform and count are known: each
    primary event takes a type draw and a second-of-day draw, and, when the
    session is enriched, a premium feature draw; the premium event shares the
    primary event's timestamp.
   */
  function EventsFrom(u: User, date: int, sid: nat, platform: Platform, enrich: bool, count: nat, s: Stream, p: nat)
    : (r: Drawn<seq<LogEvent>>)
    ensures SessionRows(r.value, u, sid, platform, date, enrich, count)
    ensures r.next >= p
    decreases count
  {
    if count == 0 then
      Drawn([], p)
    else
      var primary := PrimaryAt(u, date, sid, platform, s, p);
      if enrich then
        var premium := LogEvent(u.id, sid, primary.time, Premium(PremiumFeatureAt(s, p + 2)), Some(platform));
        var rest := EventsFrom(u, date, sid, platform, enrich, count - 1, s, p + 3);
        PairThenRest(primary, premium, rest.value, u, sid, platform, date, count);
        Drawn([primary, premium] + rest.value, rest.next)
      else
        var rest := EventsFrom(u, date, sid, platform, enrich, count - 1, s, p + 2);
        PrimaryThenRest(primary, rest.value, u, sid, platform, date, count);
        Drawn([primary] + rest.value, rest.next)
  }

  lemma PrimaryThenRest(a: LogEvent, rest: seq<LogEvent>, u: User, sid: nat, platform: Platform, date: int, count: nat)
    requires count > 0 && a.kind.Primary? && InSession(a, u, sid, platform, date)
    requires SessionRows(rest, u, sid, platform, date, false, count - 1)
    ensures SessionRows([a] + rest, u, sid, platform, date, false, count)
  {
    var all := [a] + rest;
    assert forall i :: 0 <= i < |all| ==> all[i].kind.Primary? by {
      forall i | 0 <= i < |all|
        ensures all[i].kind.Primary?
      {
        assert all[i] in all;
      }
    }
  }

  lemma PairThenRest(a: LogEvent, b: LogEvent, rest: seq<LogEvent>, u: User, sid: nat, platform: Platform, date: int, count: nat)
    requires count > 0 && a.kind.Primary? && b.kind.Premium? && a.time == b.time
    requires InSession(a, u, sid, platform, date) && InSession(b, u, sid, platform, date)
    requires SessionRows(rest, u, sid, platform, date, true, count - 1)
    ensures SessionRows([a, b] + rest, u, sid, platform, date, true, count)
  {
    var all := [a, b] + rest;
    forall i | 2 <= i < |all|
      ensures all[i] == rest[i - 2]
    {
    }
    forall i | 0 <= i < |all| && all[i].kind.Premium?
      ensures 0 < i && all[i - 1].kind.Primary? && all[i - 1].time == all[i].time
    {
      if i > 2 {
        assert all[i - 1] == rest[i - 3];
      }
    }
    forall i | 0 <= i < |all| && all[i].kind.Primary?
      ensures i + 1 < |all| && all[i + 1].kind.Premium?
    {
      if i >= 2 {
        assert all[i + 1] == rest[i - 1];
      }
    }
  }

  /**
    `generate_session_events`: the session platform, the event count within
    the tier's bounds scaled by the multiplier, then the events. A session is
    enriched only for a premium user with a multiplier above 1.0, and then has
    exactly one premium row beside each primary row.
   */
  function GenerateSessionEvents(u: User, date: int, sid: nat, m: Tenths, s: Stream, p: nat): (r: Drawn<seq<LogEvent>>)
    ensures var platform := SessionPlatformAt(s, p, u);
            && (platform == u.platform || platform == Desktop)
            && forall e <- r.value :: InSession(e, u, sid, platform, date)
    ensures !Enriched(u, m) ==>
      && EventBounds(u.tier, m).0 <= |r.value| <= EventBounds(u.tier, m).1
      && forall e <- r.value :: e.kind.Primary?
    ensures Enriched(u, m) ==>
      && 2 * EventBounds(u.tier, m).0 <= |r.value| <= 2 * EventBounds(u.tier, m).1
      && PrimaryHasCompanion(r.value)
    ensures PremiumFollowsPrimary(r.value)
    ensures r.next >= p
  {
    var platform := SessionPlatformAt(s, p, u);
    var count := EventsCountAt(s, p + 1, u.tier, m);
    EventsFrom(u, date, sid, platform, Enriched(u, m), count, s, p + 2)
  }

  // ---------------------------------------------------------------------------
  // Scheduled sessions

  /** Row `e` belongs to the planned session `pl` of user `u`. */
  predicate FromPlan(e: LogEvent, pl: SessionPlan, u: User)
  {
    && e.user == u.id && e.session == pl.id && pl.date <= e.time < pl.date + Day
    && (e.kind.Primary? ==> e.kind.event != BuyPremium)
    && (e.kind.Premium? ==> Enriched(u, pl.mult))
  }

  /** The rows of one planned session. */
  function PlannedSession(u: User, pl: SessionPlan, s: Stream, p: nat): (r: Drawn<seq<LogEvent>>)
    ensures forall e <- r.value :: FromPlan(e, pl, u)
    ensures r.next >= p
  {
    GenerateSessionEvents(u, pl.date, pl.id, pl.mult, s, p)
  }

  /** The events of the planned sessions, one session after another. */
  function ExpandSessions(u: User, plans: seq<SessionPlan>, s: Stream, p: nat): (r: Drawn<seq<LogEvent>>)
    ensures forall e <- r.value :: exists pl <- plans :: FromPlan(e, pl, u)
    ensures r.next >= p
    decreases |plans|
  {
    if |plans| == 0 then
      Drawn([], p)
    else
      var first := PlannedSession(u, plans[0], s, p);
      var rest := ExpandSessions(u, plans[1..], s, first.next);
      assert forall e <- first.value + rest.value :: e in first.value || e in rest.value;
      assert forall q <- plans[1..] :: q in plans;
      assert plans[0] in plans;
      Drawn(first.value + rest.value, rest.next)
  }

  /** What one user contributes to the event log, and the next unused session id. */
  datatype UserLog = UserLog(events: seq<LogEvent>, nextId: nat)

  /** No premium feature row precedes a `buy_premium` row of the same log. */
  predicate PremiumAfterPurchase(events: seq<LogEvent>)
  {
    forall e <- events :: e.kind.Premium? ==>
      exists b <- events :: b.kind == Primary(BuyPremium) && b.time <= e.time
  }

  lemma PurchaseThenSessions(buy: LogEvent, events: seq<LogEvent>)
    requires buy.kind == Primary(BuyPremium)
    requires forall e <- events :: e.kind.Premium? ==> buy.time <= e.time
    ensures PremiumAfterPurchase([buy] + events)
  {
    var all := [buy] + events;
    assert all[0] == buy;
    forall e <- all | e.kind.Premium?
      ensures exists b <- all :: b.kind == Primary(BuyPremium) && b.time <= e.time
    {
      assert e in events;
    }
  }

  /**
    A premium user's share of the main loop: the purchase instant (day 5 to
    25 after the start, any second), the `buy_premium` row, then `n` sessions
    around the purchase.
   */
  function PremiumUserLogs(u: User, start: int, n: nat, s: Stream, p: nat, nextId: nat): (r: Drawn<UserLog>)
    ensures forall e <- r.value.events :: e.user == u.id
    ensures PremiumAfterPurchase(r.value.events)
    ensures r.value.nextId == nextId + 1 + n
  {
    var premiumDate := PurchaseInstant(start, s, p);
    // p + 2 is the uniform `subscription_type` draw, which version 3 does not log
    var buy := LogEvent(u.id, nextId, premiumDate, Primary(BuyPremium), Some(u.platform));
    var events := SessionsAround(u, premiumDate, n, s, p + 3, nextId + 1);
    PurchaseThenSessions(buy, events.value);
    Drawn(UserLog([buy] + events.value, nextId + 1 + n), events.next)
  }

  /** The rows of `n` sessions around the purchase, at 1.4 times the volume on and after it. */
  function SessionsAround(u: User, premiumDate: int, n: nat, s: Stream, p: nat, nextId: nat): (r: Drawn<seq<LogEvent>>)
    ensures forall e <- r.value :: e.user == u.id && (e.kind.Premium? ==> premiumDate <= e.time)
  {
    var plans := PremiumSessions(premiumDate, 14, n, s, p, nextId);
    var events := ExpandSessions(u, plans.value, s, plans.next);
    PremiumRowsAfterPurchase(u, premiumDate, plans.value, events.value);
    events
  }

  /** A regular user's share of the main loop: `n` sessions in the first 31 days. */
  function RegularUserLogs(u: User, start: int, n: nat, s: Stream, p: nat, nextId: nat): (r: Drawn<UserLog>)
    ensures forall e <- r.value.events :: e.user == u.id && e.kind.Primary? && e.kind.event != BuyPremium
    ensures r.value.nextId == nextId + n
  {
    var plans := RegularSessions(start, n, s, p, nextId);
    var events := ExpandSessions(u, plans.value, s, plans.next);
    forall e <- events.value
      ensures e.kind.Primary?
    {
      var pl :| pl in plans.value && FromPlan(e, pl, u);
    }
    Drawn(UserLog(events.value, nextId + n), events.next)
  }

  /**
    One iteration of the main loop: the session count, then the premium or
    the regular user's rows. Premium feature rows appear only for premium
    users and never before their `buy_premium` row.
   */
  function UserLogs(u: User, start: int, s: Stream, p: nat, nextId: nat): (r: Drawn<UserLog>)
    ensures forall e <- r.value.events :: e.user == u.id
    ensures PremiumAfterPurchase(r.value.events)
    ensures !u.premium ==> forall e <- r.value.events :: e.kind.Primary? && e.kind.event != BuyPremium
    ensures r.value.nextId >= nextId
  {
    var n := SessionsCountAt(s, p, u.tier);
    if u.premium then PremiumUserLogs(u, start, n, s, p + 1, nextId)
    else RegularUserLogs(u, start, n, s, p + 1, nextId)
  }

  /** Sessions before the purchase are not enriched, so premium rows come after it. */
  lemma PremiumRowsAfterPurchase(u: User, premiumDate: int, plans: seq<SessionPlan>, events: seq<LogEvent>)
    requires forall pl <- plans :: pl.mult == (if pl.date >= premiumDate then 14 else 10)
    requires forall e <- events :: exists pl <- plans :: FromPlan(e, pl, u)
    ensures forall e <- events :: e.kind.Premium? ==> premiumDate <= e.time
  {
    forall e <- events | e.kind.Premium?
      ensures premiumDate <= e.time
    {
      var pl :| pl in plans && FromPlan(e, pl, u);
    }
  }
}
