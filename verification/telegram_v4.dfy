/**
  Version 4 of the Telegram log generator: sessions start at a time of day
  that depends on the weekday, events follow one another by 2 to 9 seconds,
  every instant of a session is used at most once (a taken instant is bumped
  by one second until free), and premium users' sessions after the purchase
  carry premium feature events chosen by the hour of the triggering event.
 */
module TelegramV4 {
  import opened Draws
  import opened Clock
  import opened Weighted
  import opened Activity
  import Subscription
  import History

  // ---------------------------------------------------------------------------
  // Contextual premium events

  const NightFeatures: seq<Feature> := [ExtraCloudStorage, EmojiStatusProfile]
  const NightWeights: seq<nat> := [700, 300]
  const DayFeatures: seq<Feature> := [VoiceToText, PostStory, UseCustomEmoji]
  const DayWeights: seq<nat> := [400, 300, 300]
  const EveningFeatures: seq<Feature> := [ExtraReactions, TelegramAppIcon, AnimatedProfilePicture]
  const EveningWeights: seq<nat> := [500, 300, 200]

  /** The evening weights for iOS users, who change the app icon more often. */
  const IOSEveningWeights: seq<nat> := [400, 400, 200]

  /** The candidate features of an hour band. */
  function BandFeatures(h: nat): seq<Feature>
  {
    if h <= 6 then NightFeatures else if h <= 17 then DayFeatures else EveningFeatures
  }

  /** The weights of an hour band; only the evening band looks at the platform. */
  function BandWeights(h: nat, platform: Platform): (w: seq<nat>)
    ensures |w| == |BandFeatures(h)| && IsDistribution(w)
    ensures forall i :: 0 <= i < |w| ==> w[i] > 0
  {
    assert IsDistribution(NightWeights) && IsDistribution(DayWeights);
    assert IsDistribution(EveningWeights) && IsDistribution(IOSEveningWeights);
    if h <= 6 then NightWeights
    else if h <= 17 then DayWeights
    else if platform == IOS then IOSEveningWeights
    else EveningWeights
  }

  /**
    `get_contextual_premium_event`: one weighted draw over the features of the
    hour band of `t`, night (0 to 6), day (7 to 17) or evening (18 to 23),
    with the user's dominant platform adjusting the evening weights.
   */
  function ContextualPremiumEvent(t: int, platform: Platform, s: Stream, p: nat): (f: Feature)
    ensures HourOf(t) <= 6 ==> f == ExtraCloudStorage || f == EmojiStatusProfile
    ensures 7 <= HourOf(t) <= 17 ==> f == VoiceToText || f == PostStory || f == UseCustomEmoji
    ensures 18 <= HourOf(t) ==> f == ExtraReactions || f == TelegramAppIcon || f == AnimatedProfilePicture
    ensures f in BandFeatures(HourOf(t))
  {
    ChooseAt(s, p, BandFeatures(HourOf(t)), BandWeights(HourOf(t), platform))
  }

  /** Outside the evening the platform makes no difference to the draw. */
  lemma PlatformMattersOnlyInEvening(t: int, a: Platform, b: Platform, s: Stream, p: nat)
    requires HourOf(t) <= 17 || (a != IOS && b != IOS)
    ensures ContextualPremiumEvent(t, a, s, p) == ContextualPremiumEvent(t, b, s, p)
  {
  }

  /** In the evening iOS users get the app icon more often and reactions less often. */
  lemma IOSFavoursAppIconInEvening(h: nat, other: Platform)
    requires 18 <= h && other != IOS
    ensures BandWeights(h, IOS)[1] > BandWeights(h, other)[1]
    ensures BandWeights(h, IOS)[0] < BandWeights(h, other)[0]
    ensures BandWeights(h, IOS)[2] == BandWeights(h, other)[2]
  {
  }

  /** Every feature of a band is the answer for some draw. */
  lemma BandFeaturesReachable(t: int, platform: Platform, i: nat)
    requires i < |BandFeatures(HourOf(t))|
    ensures exists s: Stream :: ContextualPremiumEvent(t, platform, s, 0) == BandFeatures(HourOf(t))[i]
  {
    var h := HourOf(t);
    PositiveWeightReachable(BandFeatures(h), BandWeights(h, platform), i);
    var d: nat :| Choose(BandFeatures(h), BandWeights(h, platform), d) == BandFeatures(h)[i];
    var s: Stream := _ => d;
    assert ContextualPremiumEvent(t, platform, s, 0) == BandFeatures(h)[i];
  }

  // ---------------------------------------------------------------------------
  // Session timing

  /**
    `session_start`: on weekdays (0 to 4) an evening start with probability
    0.7 and otherwise any start up to 23:00; at weekends a daytime start with
    probability 0.5 and otherwise an evening start. Draws p and p + 1.
   */
  function SessionStartAt(date: int, weekday: int, s: Stream, p: nat): (t: int)
    ensures weekday < 5 && UnitAt(s, p) < 0.7 ==> date + 18 * Hour <= t < date + Day
    ensures weekday < 5 && UnitAt(s, p) >= 0.7 ==> date <= t < date + Day - Hour
    ensures weekday >= 5 && UnitAt(s, p) < 0.5 ==> date + 10 * Hour <= t < date + 18 * Hour
    ensures weekday >= 5 && UnitAt(s, p) >= 0.5 ==> date + 18 * Hour <= t < date + Day
  {
    if weekday < 5 then
      if UnitAt(s, p) < 0.7 then date + IntAt(s, p + 1, 18 * Hour, 24 * Hour)
      else date + IntAt(s, p + 1, 0, Day - Hour)
    else
      if UnitAt(s, p) < 0.5 then date + IntAt(s, p + 1, 10 * Hour, 18 * Hour)
      else date + IntAt(s, p + 1, 18 * Hour, 24 * Hour)
  }

  /** A weekend session never starts before 10:00. */
  lemma WeekendStartsAfterTen(date: int, weekday: int, s: Stream, p: nat)
    requires weekday >= 5
    ensures date + 10 * Hour <= SessionStartAt(date, weekday, s, p) < date + Day
  {
  }

  /**
    `session_start + cumsum(randint(2, 10, size=n))`: the planned instants of
    the events, each 2 to 9 seconds after the previous one.
   */
  function PlannedTimes(prev: int, n: nat, s: Stream, p: nat): (ts: seq<int>)
    ensures |ts| == n
    ensures n > 0 ==> prev + 2 <= ts[0] <= prev + 9
    ensures forall i :: 0 < i < n ==> ts[i - 1] + 2 <= ts[i] <= ts[i - 1] + 9
    decreases n
  {
    if n == 0 then []
    else
      var t := prev + IntAt(s, p, 2, 10);
      var rest := PlannedTimes(t, n - 1, s, p + 1);
      [t] + rest
  }

  /** The planned instants are strictly increasing and the i-th lies 2(i+1) to 9(i+1) seconds after the start. */
  lemma {:induction false} PlannedTimesIncreasing(prev: int, n: nat, s: Stream, p: nat)
    ensures forall i, j :: 0 <= i < j < n ==> PlannedTimes(prev, n, s, p)[i] < PlannedTimes(prev, n, s, p)[j]
    ensures forall i :: 0 <= i < n ==>
      prev + 2 * (i + 1) <= PlannedTimes(prev, n, s, p)[i] <= prev + 9 * (i + 1)
    decreases n
  {
    if n > 0 {
      var t := prev + IntAt(s, p, 2, 10);
      var rest := PlannedTimes(t, n - 1, s, p + 1);
      PlannedTimesIncreasing(t, n - 1, s, p + 1);
      assert forall i :: 0 <= i < n - 1 ==> t + 2 * (i + 1) <= rest[i] <= t + 9 * (i + 1);
      assert forall i, j :: 0 <= i < j < n - 1 ==> rest[i] < rest[j];
      var ts := PlannedTimes(prev, n, s, p);
      assert ts == [t] + rest;
      assert prev + 2 <= t <= prev + 9;
      forall i | 0 < i < n
        ensures ts[i] == rest[i - 1]
        ensures prev + 2 * (i + 1) <= ts[i] <= prev + 9 * (i + 1)
        ensures t < ts[i]
      {
        assert t + 2 * i <= rest[i - 1] <= t + 9 * i;
      }
    }
  }

  // ---------------------------------------------------------------------------
  // Emission with unique instants

  /**
    `while timestamp in used_timestamps: timestamp += 1 s`: the first instant
    at or after `t` that is not taken. `bound` is above every taken instant,
    which is what makes the loop end.
   */
  method NextFree(used: set<int>, t: int, bound: int) returns (r: int)
    requires Below(used, bound)
    ensures t <= r && r !in used
    ensures Taken(used, t, r)
    ensures r <= if t < bound then bound else t
  {
    r := t;
    while r in used
      invariant t <= r <= if t < bound then bound else t
      invariant Taken(used, t, r)
      decreases bound - r
    {
      r := r + 1;
    }
  }

  /** Every taken instant lies below `bound`. */
  predicate Below(used: set<int>, bound: int)
  {
    forall x <- used :: x < bound
  }

  /** Every instant in [lo, hi) is taken. */
  predicate Taken(used: set<int>, lo: int, hi: int)
  {
    forall x :: lo <= x < hi ==> x in used
  }

  /** The instants of a sequence of rows. */
  function TimesOf(es: seq<LogEvent>): set<int>
  {
    set e <- es :: e.time
  }

  lemma TimesOfAppend(a: seq<LogEvent>, b: seq<LogEvent>)
    ensures TimesOf(a + b) == TimesOf(a) + TimesOf(b)
  {
    assert forall e <- a + b :: e in a || e in b;
  }

  /** No two rows share an instant. */
  predicate DistinctInstants(es: seq<LogEvent>)
  {
    forall i, j :: 0 <= i < j < |es| ==> es[i].time != es[j].time
  }

  lemma DistinctConcat(a: seq<LogEvent>, b: seq<LogEvent>)
    requires DistinctInstants(a) && DistinctInstants(b)
    requires forall e <- b :: e.time !in TimesOf(a)
    ensures DistinctInstants(a + b)
  {
    var ab := a + b;
    forall i, j | 0 <= i < j < |ab|
      ensures ab[i].time != ab[j].time
    {
      if j >= |a| && i < |a| {
        assert ab[j] == b[j - |a|] && ab[j] in b;
        assert ab[i] == a[i] && ab[i].time in TimesOf(a);
      } else if i >= |a| {
        assert ab[i] == b[i - |a|] && ab[j] == b[j - |a|];
      }
    }
  }

  /** A row of session `sid` of user `u`, logged with the session's platform. */
  predicate InSession(e: LogEvent, u: User, sid: nat, platform: Platform)
  {
    e.user == u.id && e.session == sid && e.platform == Some(platform)
  }

  /** One primary row with the premium rows it triggered. */
  datatype Group = Group(primary: LogEvent, extras: seq<LogEvent>)

  /** A well-formed group: a drawn primary event, and at most three premium rows later than it whose features fit the hour of the primary. */
  predicate GroupShape(g: Group, u: User, sid: nat, platform: Platform)
  {
    && InSession(g.primary, u, sid, platform)
    && g.primary.kind.Primary? && g.primary.kind.event != BuyPremium
    && |g.extras| <= 3
    && forall e <- g.extras ::
         && InSession(e, u, sid, platform) && e.kind.Premium?
         && g.primary.time < e.time
         && e.kind.feature in BandFeatures(HourOf(g.primary.time))
  }

  /** The log rows of the groups in emission order. */
  function Flatten(gs: seq<Group>): seq<LogEvent>
  {
    if |gs| == 0 then []
    else
      var init := gs[..|gs| - 1];
      var last := gs[|gs| - 1];
      Flatten(init) + [last.primary] + last.extras
  }

  /** `np.random.choice([1, 2, 3], p=[0.6, 0.3, 0.1])`. */
  const PremiumCountWeights: seq<nat> := [600, 300, 100]

  /**
    The premium rows one primary row triggers: `num` rows, each with a
    feature drawn for the hour of the primary and placed at the first free
    instant 1 to 4 seconds after it.
   */
  method EmitExtras(u: User, primary: LogEvent, num: nat, used: set<int>, bound: int, s: Stream, p: nat)
    returns (extras: seq<LogEvent>, used': set<int>, bound': int, next: nat)
    requires Below(used, bound)
    requires primary.time in used
    ensures |extras| == num
    ensures ExtrasFit(primary, extras, used)
    ensures used' == used + TimesOf(extras)
    ensures Below(used', bound')
    ensures next >= p
  {
    extras, used', bound', next := [], used, bound, p;
    while |extras| < num
      invariant |extras| <= num && next >= p
      invariant Below(used', bound')
      invariant used' == used + TimesOf(extras)
      invariant DistinctInstants(extras)
      invariant forall e <- extras :: e.user == primary.user && e.session == primary.session && e.platform == primary.platform
      invariant forall e <- extras :: e.kind.Premium? && primary.time < e.time && e.time !in used
      invariant forall e <- extras :: e.kind.feature in BandFeatures(HourOf(primary.time))
    {
      var feature := ContextualPremiumEvent(primary.time, u.platform, s, next);
      var offset := IntAt(s, next + 1, 1, 5);
      var t := NextFree(used', primary.time + offset, bound');
      var e := LogEvent(primary.user, primary.session, t, Premium(feature), primary.platform);
      DistinctConcat(extras, [e]);
      TimesOfAppend(extras, [e]);
      extras := extras + [e];
      used' := used' + {t};
      bound' := if bound' <= t then t + 1 else bound';
      next := next + 2;
    }
  }

  /**
    Premium rows triggered by `primary`: in its session, later than it, at
    distinct instants none of which is in `used`, with features that fit the
    hour of the primary.
   */
  predicate ExtrasFit(primary: LogEvent, extras: seq<LogEvent>, used: set<int>)
  {
    && (forall e <- extras :: e.user == primary.user && e.session == primary.session && e.platform == primary.platform)
    && (forall e <- extras :: e.kind.Premium? && primary.time < e.time && e.time !in used)
    && (forall e <- extras :: e.kind.feature in BandFeatures(HourOf(primary.time)))
    && DistinctInstants(extras)
  }

  /**
    One iteration of the event loop: the primary row at the first free
    instant from its planned one, then, for an enriched session and a
    uniform draw below 0.7, one to three premium rows.
   */
  method EmitGroup(u: User, sid: nat, platform: Platform, planned: int, enrich: bool,
                   used: set<int>, bound: int, s: Stream, p: nat)
    returns (g: Group, used': set<int>, bound': int, next: nat)
    requires Below(used, bound)
    ensures GroupEmitted(g, u, sid, platform, planned, enrich, used, used', bound')
    ensures next >= p
  {
    var t := NextFree(used, planned, bound);
    var primary := PrimaryRowAt(u, sid, platform, t, s, p);
    var num := PremiumCountAt(enrich, s, p + 1);
    var extras;
    extras, used', bound', next := EmitExtras(u, primary, num.value, used + {t}, if bound <= t then t + 1 else bound, s, num.next);
    g := Group(primary, extras);
    GroupFacts(u, sid, platform, planned, enrich, primary, extras, used, used', bound');
  }

  /** The primary row at instant `t`, its type drawn at p: a session row, never a drawn `buy_premium`. */
  function PrimaryRowAt(u: User, sid: nat, platform: Platform, t: int, s: Stream, p: nat): (e: LogEvent)
    ensures InSession(e, u, sid, platform) && e.time == t
    ensures e.kind.Primary? && e.kind.event != BuyPremium
  {
    LogEvent(u.id, sid, t, Primary(EventTypeAt(s, p)), Some(platform))
  }

  /**
    One group as the event loop emits it: its primary row at the first free
    instant at or after the planned one, its rows at distinct instants that
    were all free and are now taken, and no premium rows outside enriched
    sessions.
   */
  predicate GroupEmitted(g: Group, u: User, sid: nat, platform: Platform, planned: int, enrich: bool,
                         used: set<int>, used': set<int>, bound': int)
  {
    && planned <= g.primary.time && g.primary.time !in used
    && Taken(used, planned, g.primary.time)
    && GroupShape(g, u, sid, platform)
    && DistinctInstants([g.primary] + g.extras)
    && used' == used + TimesOf([g.primary] + g.extras) && used !! TimesOf([g.primary] + g.extras)
    && Below(used', bound')
    && (!enrich ==> g.extras == [])
  }

  /**
    How many premium rows a primary row triggers: none outside enriched
    sessions, none when the uniform draw at p is 0.7 or more, and otherwise
    `num_premium_events`, one to three with probabilities 0.6, 0.3 and 0.1.
   */
  function PremiumCountAt(enrich: bool, s: Stream, p: nat): (r: Drawn<nat>)
    ensures r.value <= 3 && r.next >= p
    ensures r.value > 0 <==> enrich && UnitAt(s, p) < 0.7
  {
    if enrich && UnitAt(s, p) < 0.7 then
      History.WeightTablesAreDistributions();
      Drawn(ChooseAt(s, p + 1, [1, 2, 3], PremiumCountWeights), p + 2)
    else
      Drawn(0, if enrich then p + 1 else p)
  }

  lemma GroupFacts(u: User, sid: nat, platform: Platform, planned: int, enrich: bool, primary: LogEvent, extras: seq<LogEvent>,
                   used: set<int>, used': set<int>, bound': int)
    requires InSession(primary, u, sid, platform) && primary.kind.Primary? && primary.kind.event != BuyPremium
    requires planned <= primary.time && primary.time !in used && Taken(used, planned, primary.time)
    requires |extras| <= 3 && (!enrich ==> extras == [])
    requires ExtrasFit(primary, extras, used + {primary.time})
    requires used' == used + {primary.time} + TimesOf(extras) && Below(used', bound')
    ensures GroupEmitted(Group(primary, extras), u, sid, platform, planned, enrich, used, used', bound')
  {
    assert TimesOf([primary]) == {primary.time};
    DistinctConcat([primary], extras);
    TimesOfAppend([primary], extras);
  }

  /** The state of the event loop after the groups of the first |groups| planned instants. */
  predicate Emitted(u: User, sid: nat, platform: Platform, planned: seq<int>, enrich: bool,
                    groups: seq<Group>, events: seq<LogEvent>, used: set<int>, bound: int)
  {
    && |groups| <= |planned|
    && RowsState(groups, events, used, bound, enrich)
    && ShapeState(groups, u, sid, platform, enrich)
    && OrderState(planned, groups, used)
  }

  /** The rows emitted so far: the flattened groups, at distinct instants, all taken and below the bound. */
  predicate RowsState(groups: seq<Group>, events: seq<LogEvent>, used: set<int>, bound: int, enrich: bool)
  {
    && events == Flatten(groups) && used == TimesOf(events)
    && |groups| <= |events| <= 4 * |groups| && (!enrich ==> |events| == |groups|)
    && DistinctInstants(events)
    && Below(used, bound)
  }

  predicate ShapeState(groups: seq<Group>, u: User, sid: nat, platform: Platform, enrich: bool)
  {
    && (forall g <- groups :: GroupShape(g, u, sid, platform))
    && (!enrich ==> forall g <- groups :: g.extras == [])
  }

  /** Primary rows at or after their planned instants, in increasing order, with no free instant between the last planned instant and the last primary. */
  predicate OrderState(planned: seq<int>, groups: seq<Group>, used: set<int>)
    requires |groups| <= |planned|
  {
    && (forall k :: 0 <= k < |groups| ==> planned[k] <= groups[k].primary.time)
    && (forall a, b :: 0 <= a < b < |groups| ==> groups[a].primary.time < groups[b].primary.time)
    && (0 < |groups| ==> Taken(used, planned[|groups| - 1], groups[|groups| - 1].primary.time + 1))
  }

  /**
    The event loop of a session: one group per planned instant, with the
    set of taken instants carried from group to group. Every instant of the
    session is used once, and primary rows keep the order of their planned
    instants.
   */
  method EmitEvents(u: User, sid: nat, platform: Platform, planned: seq<int>, enrich: bool, s: Stream, p: nat)
    returns (groups: seq<Group>, events: seq<LogEvent>, next: nat)
    requires forall i :: 0 < i < |planned| ==> planned[i - 1] < planned[i]
    ensures |groups| == |planned| && events == Flatten(groups)
    ensures DistinctInstants(events)
    ensures forall g <- groups :: GroupShape(g, u, sid, platform)
    ensures forall k :: 0 <= k < |groups| ==> planned[k] <= groups[k].primary.time
    ensures forall a, b :: 0 <= a < b < |groups| ==> groups[a].primary.time < groups[b].primary.time
    ensures !enrich ==> forall g <- groups :: g.extras == []
    ensures |planned| <= |events| <= 4 * |planned|
    ensures !enrich ==> |events| == |planned|
    ensures next >= p
  {
    groups, events, next := [], [], p;
    var used: set<int> := {};
    var bound := 0;
    while |groups| < |planned|
      invariant Emitted(u, sid, platform, planned, enrich, groups, events, used, bound)
      invariant next >= p
      decreases |planned| - |groups|
    {
      var g, used', bound', next' := EmitGroup(u, sid, platform, planned[|groups|], enrich, used, bound, s, next);
      EmitStep(u, sid, platform, planned, enrich, groups, events, used, bound, g, used', bound');
      groups, events := groups + [g], events + ([g.primary] + g.extras);
      used, bound, next := used', bound', next';
    }
  }

  /** One more group keeps the loop state. */
  lemma EmitStep(u: User, sid: nat, platform: Platform, planned: seq<int>, enrich: bool,
                 groups: seq<Group>, events: seq<LogEvent>, used: set<int>, bound: int,
                 g: Group, used': set<int>, bound': int)
    requires forall i :: 0 < i < |planned| ==> planned[i - 1] < planned[i]
    requires Emitted(u, sid, platform, planned, enrich, groups, events, used, bound)
    requires |groups| < |planned|
    requires GroupEmitted(g, u, sid, platform, planned[|groups|], enrich, used, used', bound')
    ensures Emitted(u, sid, platform, planned, enrich, groups + [g], events + ([g.primary] + g.extras), used', bound')
  {
    RowsStep(groups, events, used, g);
    OrderStep(planned, groups, used, g, used');
    var groups' := groups + [g];
    assert forall h <- groups' :: h in groups || h == g;
  }

  /** The next primary lands at or after its planned instant and past the previous primary. */
  lemma OrderStep(planned: seq<int>, groups: seq<Group>, used: set<int>, g: Group, used': set<int>)
    requires forall i :: 0 < i < |planned| ==> planned[i - 1] < planned[i]
    requires |groups| < |planned| && OrderState(planned, groups, used)
    requires planned[|groups|] <= g.primary.time && g.primary.time !in used
    requires Taken(used, planned[|groups|], g.primary.time)
    requires used' == used + TimesOf([g.primary] + g.extras)
    ensures OrderState(planned, groups + [g], used')
  {
    var i := |groups|;
    if 0 < i {
      PrimaryAfterPrevious(planned[i - 1], planned[i], groups[i - 1].primary.time, g.primary.time, used);
    }
    assert Taken(used', planned[i], g.primary.time + 1) by {
      assert g.primary.time in TimesOf([g.primary] + g.extras);
    }
    var groups' := groups + [g];
    assert forall k :: 0 <= k < i ==> groups'[k] == groups[k];
  }

  /** Appending a group's rows keeps the flattening, the taken set and distinctness. */
  lemma RowsStep(groups: seq<Group>, events: seq<LogEvent>, used: set<int>, g: Group)
    requires events == Flatten(groups) && used == TimesOf(events) && DistinctInstants(events)
    requires DistinctInstants([g.primary] + g.extras)
    requires used !! TimesOf([g.primary] + g.extras)
    ensures events + ([g.primary] + g.extras) == Flatten(groups + [g])
    ensures TimesOf(events + ([g.primary] + g.extras)) == used + TimesOf([g.primary] + g.extras)
    ensures DistinctInstants(events + ([g.primary] + g.extras))
  {
    var block := [g.primary] + g.extras;
    forall e <- block
      ensures e.time !in TimesOf(events)
    {
      assert e.time in TimesOf(block);
    }
    DistinctConcat(events, block);
    TimesOfAppend(events, block);
    assert (groups + [g])[..|groups|] == groups;
    assert events + [g.primary] + g.extras == events + block;
  }

  /**
    The bump loop keeps primary rows in order: every instant from the
    previous planned one to the previous primary is taken, so a later planned
    instant lands past the previous primary.
   */
  lemma PrimaryAfterPrevious(plannedPrev: int, planned: int, prevPrimary: int, primary: int, used: set<int>)
    requires plannedPrev < planned
    requires Taken(used, plannedPrev, prevPrimary + 1)
    requires planned <= primary && primary !in used
    ensures prevPrimary < primary
  {
  }

  /** `weekday()` of a date, given by the caller. */
  type Weekday = int -> int

  /**
    `generate_session_events` of version 4: the session platform, the event
    count, the start instant, the planned instants, then the event loop.
    All instants of the session are distinct and no earlier than its date;
    premium rows appear only in enriched sessions.
   */
  method GenerateSessionEvents(u: User, date: int, weekday: Weekday, sid: nat, m: Tenths, s: Stream, p: nat)
    returns (events: seq<LogEvent>, next: nat)
    ensures forall e <- events :: InSession(e, u, sid, SessionPlatformAt(s, p, u))
    ensures DistinctInstants(events)
    ensures forall e <- events :: date < e.time
    ensures forall e <- events :: e.kind.Primary? ==> e.kind.event != BuyPremium
    ensures forall e <- events :: e.kind.Premium? ==> Enriched(u, m)
    ensures !Enriched(u, m) ==> EventBounds(u.tier, m).0 <= |events| <= EventBounds(u.tier, m).1
    ensures Enriched(u, m) ==> EventBounds(u.tier, m).0 <= |events| <= 4 * EventBounds(u.tier, m).1
    ensures next >= p
  {
    var timing := SessionTiming(u, date, weekday(date), m, s, p);
    var groups;
    groups, events, next := EmitEvents(u, sid, timing.platform, timing.planned, Enriched(u, m), s, timing.next);
    SessionRowsFacts(u, sid, timing.platform, date, timing.planned, groups, Enriched(u, m));
  }

  /** What a session fixes before its event loop: the platform and the planned instants. */
  datatype Timing = Timing(platform: Platform, planned: seq<int>, next: nat)

  /**
    The draws of a session before its event loop: the platform, the event
    count, the start instant, then the planned instants, increasing and all
    after the session date.
   */
  function SessionTiming(u: User, date: int, weekday: int, m: Tenths, s: Stream, p: nat): (r: Timing)
    ensures r.platform == SessionPlatformAt(s, p, u)
    ensures EventBounds(u.tier, m).0 <= |r.planned| <= EventBounds(u.tier, m).1
    ensures forall i :: 0 < i < |r.planned| ==> r.planned[i - 1] < r.planned[i]
    ensures forall i :: 0 <= i < |r.planned| ==> date < r.planned[i]
    ensures r.next == p + 4 + |r.planned|
  {
    var count := EventsCountAt(s, p + 1, u.tier, m);
    var start := SessionStartAt(date, weekday, s, p + 2);
    assert date <= start;
    PlannedTimesIncreasing(start, count, s, p + 4);
    Timing(SessionPlatformAt(s, p, u), PlannedTimes(start, count, s, p + 4), p + 4 + count)
  }

  lemma SessionRowsFacts(u: User, sid: nat, platform: Platform, date: int, planned: seq<int>,
                         groups: seq<Group>, enrich: bool)
    requires forall i :: 0 <= i < |planned| ==> date < planned[i]
    requires |groups| == |planned|
    requires forall k :: 0 <= k < |groups| ==> planned[k] <= groups[k].primary.time
    requires forall g <- groups :: GroupShape(g, u, sid, platform)
    requires !enrich ==> forall g <- groups :: g.extras == []
    ensures forall e <- Flatten(groups) :: InSession(e, u, sid, platform) && date < e.time
    ensures forall e <- Flatten(groups) :: e.kind.Primary? ==> e.kind.event != BuyPremium
    ensures forall e <- Flatten(groups) :: e.kind.Premium? ==> enrich
  {
    forall e <- Flatten(groups)
      ensures InSession(e, u, sid, platform) && date < e.time
      ensures e.kind.Primary? ==> e.kind.event != BuyPremium
      ensures e.kind.Premium? ==> enrich
    {
      var k := InFlatten(groups, e);
      assert groups[k] in groups;
      assert planned[k] <= groups[k].primary.time;
    }
  }

  /** The group a flattened row comes from. */
  lemma {:induction false} InFlatten(gs: seq<Group>, e: LogEvent) returns (k: nat)
    requires e in Flatten(gs)
    ensures k < |gs| && (e == gs[k].primary || e in gs[k].extras)
    decreases |gs|
  {
    var init := gs[..|gs| - 1];
    var last := gs[|gs| - 1];
    if e in Flatten(init) {
      k := InFlatten(init, e);
    } else {
      assert e in [last.primary] + last.extras;
      k := |gs| - 1;
    }
  }

  // ---------------------------------------------------------------------------
  // Scheduling over the calendar grid

  /**
    The calendar inputs of the scheduling loop: the daily, weekly and
    month-end dates of the generation period and the weekday of a date.
   */
  datatype Calendar = Calendar(days: seq<int>, weeks: seq<int>, monthEnds: seq<int>, weekday: Weekday)

  /** The grid a tier's sessions are scheduled on. */
  function GridOf(cal: Calendar, t: Tier): seq<int>
  {
    match t
    case Active => cal.days
    case Medium => cal.weeks
    case Rare => cal.monthEnds
  }

  /**
    The multiplier rule of version 4: 1.4 for a session whose date is on or
    after the purchase instant of a premium user, 1.0 otherwise.
   */
  function MultiplierV4(date: int, premiumDate: Option<int>): (m: Tenths)
    ensures m == 14 <==> premiumDate.Some? && date >= premiumDate.value
    ensures m == Baseline <==> !(premiumDate.Some? && date >= premiumDate.value)
  {
    if premiumDate.Some? && date >= premiumDate.value then 14 else Baseline
  }

  /**
    Session dates are midnights and the purchase is an instant, so sessions
    on the purchase day itself stay at 1.0 unless the purchase was at
    midnight; the next day is elevated.
   */
  lemma PurchaseDayNotElevated(day: int, second: int)
    requires 0 < second < Day
    ensures MultiplierV4(day * Day, Some(day * Day + second)) == Baseline
    ensures MultiplierV4((day + 1) * Day, Some(day * Day + second)) == 14
  {
  }

  /**
    One grid point: the session date and how many sessions it gets. Active
    users take the grid day and one or two sessions; medium users a day 0 to
    6 after the week start and one or two sessions; rare users a day 0 to 30
    after the month end and one session.
   */
  function SlotAt(t: Tier, point: int, s: Stream, p: nat): (r: Drawn<(int, nat)>)
    ensures t == Active ==> r.value.0 == point && 1 <= r.value.1 <= 2
    ensures t == Medium ==> point <= r.value.0 < point + 7 * Day && (r.value.0 - point) % Day == 0 && 1 <= r.value.1 <= 2
    ensures t == Rare ==> point <= r.value.0 < point + 31 * Day && (r.value.0 - point) % Day == 0 && r.value.1 == 1
    ensures r.next >= p
  {
    match t
    case Active => Drawn((point, IntAt(s, p, 1, 3)), p + 1)
    case Medium => Drawn((point + IntAt(s, p, 0, 7) * Day, IntAt(s, p + 1, 1, 3)), p + 2)
    case Rare => Drawn((point + IntAt(s, p, 0, 31) * Day, 1), p + 1)
  }

  /** A row of user `u` from a session with an id in [lo, hi), premium only after the purchase. */
  predicate ScheduledRow(e: LogEvent, u: User, premiumDate: Option<int>, lo: nat, hi: nat)
  {
    && e.user == u.id && lo <= e.session < hi
    && (e.kind.Primary? ==> e.kind.event != BuyPremium)
    && (e.kind.Premium? ==> u.premium && premiumDate.Some? && premiumDate.value < e.time)
  }

  /** One scheduled session with its multiplier, as a row-level summary. */
  method ScheduledSession(u: User, date: int, cal: Calendar, premiumDate: Option<int>, sid: nat, s: Stream, p: nat)
    returns (events: seq<LogEvent>, next: nat)
    ensures forall e <- events :: ScheduledRow(e, u, premiumDate, sid, sid + 1)
    ensures next >= p
  {
    var m := MultiplierV4(date, premiumDate);
    events, next := GenerateSessionEvents(u, date, cal.weekday, sid, m, s, p);
  }

  /** The sessions of one grid point, each with a fresh id. */
  method SessionsAt(u: User, date: int, count: nat, cal: Calendar, premiumDate: Option<int>, s: Stream, p: nat, nextId: nat)
    returns (events: seq<LogEvent>, nextId': nat, next: nat)
    ensures nextId' == nextId + count
    ensures forall e <- events :: ScheduledRow(e, u, premiumDate, nextId, nextId')
    ensures next >= p
  {
    events, nextId', next := [], nextId, p;
    while nextId' < nextId + count
      invariant nextId <= nextId' <= nextId + count && next >= p
      invariant forall e <- events :: ScheduledRow(e, u, premiumDate, nextId, nextId')
    {
      var rows, next' := ScheduledSession(u, date, cal, premiumDate, nextId', s, next);
      events := events + rows;
      nextId', next := nextId' + 1, next';
    }
  }

  /**
    The scheduling loop of version 4: for each point of the tier's grid, its
    slot and that many sessions. Premium rows appear only for premium users
    and only after their purchase instant.
   */
  method UserSessions(u: User, cal: Calendar, premiumDate: Option<int>, s: Stream, p: nat, nextId: nat)
    returns (events: seq<LogEvent>, nextId': nat, next: nat)
    ensures nextId <= nextId'
    ensures forall e <- events :: ScheduledRow(e, u, premiumDate, nextId, nextId')
    ensures next >= p
  {
    var grid := GridOf(cal, u.tier);
    events, nextId', next := [], nextId, p;
    var i := 0;
    while i < |grid|
      invariant 0 <= i <= |grid| && nextId <= nextId' && next >= p
      invariant forall e <- events :: ScheduledRow(e, u, premiumDate, nextId, nextId')
    {
      var slot := SlotAt(u.tier, grid[i], s, next);
      var rows, id', next' := SessionsAt(u, slot.value.0, slot.value.1, cal, premiumDate, s, slot.next, nextId');
      events := events + rows;
      nextId', next := id', next';
      i := i + 1;
    }
  }

  /**
    The purchase of a premium user in version 4: a day 0 to 180 after the
    period start and a second of that day, a plan drawn with weights
    0.15/0.25/0.60, the channel, and the plan's price.
   */
  function PurchaseV4(u: User, start: int, s: Stream, p: nat): (r: Drawn<Subscription.Purchase>)
    ensures r.value.user == u.id && r.value.price == Subscription.Price(r.value.plan)
    ensures start <= r.value.time < start + 181 * Day
    ensures r.next == p + 4
  {
    var time := start + IntAt(s, p, 0, 181) * Day + IntAt(s, p + 1, 0, Day);
    History.WeightTablesAreDistributions();
    var plan := ChooseAt(s, p + 2, Subscription.Plans, History.SkewedPlanWeights);
    Drawn(Subscription.Purchase(u.id, time, plan, History.SourceAt(s, p + 3), Subscription.Price(plan)), p + 4)
  }

  /**
    One iteration of the main loop of version 4: for a premium user the
    purchase, its `buy_premium` row and its purchase row; then the scheduled
    sessions. Premium feature rows appear only for premium users and only
    after the purchase instant.
   */
  method UserLogs(u: User, start: int, cal: Calendar, s: Stream, p: nat, nextId: nat)
    returns (events: seq<LogEvent>, purchases: seq<Subscription.Purchase>, nextId': nat, next: nat)
    ensures forall e <- events :: e.user == u.id
    ensures !u.premium ==> purchases == [] && forall e <- events :: e.kind.Primary? && e.kind.event != BuyPremium
    ensures u.premium ==>
      && |purchases| == 1 && |events| >= 1
      && purchases[0].user == u.id && purchases[0].price == Subscription.Price(purchases[0].plan)
      && start <= purchases[0].time < start + 181 * Day
      && events[0] == LogEvent(u.id, nextId, purchases[0].time, Primary(BuyPremium), Some(u.platform))
      && forall e <- events :: e.kind.Premium? ==> purchases[0].time < e.time
    ensures nextId' >= nextId
  {
    if u.premium {
      var buy := PurchaseV4(u, start, s, p);
      var row := LogEvent(u.id, nextId, buy.value.time, Primary(BuyPremium), Some(u.platform));
      var rows;
      rows, nextId', next := UserSessions(u, cal, Some(buy.value.time), s, buy.next, nextId + 1);
      events := [row] + rows;
      purchases := [buy.value];
      assert forall e <- events :: e == row || e in rows;
    } else {
      purchases := [];
      events, nextId', next := UserSessions(u, cal, None, s, p, nextId);
    }
  }
}
