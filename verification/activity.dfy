/**
  Tables and draws shared by the three Telegram log generators: the activity
  tier table, tier assignment, the event vocabularies with their weights, the
  event-volume multiplier and the per-session platform draw.
 */
module Activity {
  import opened Draws
  import opened Weighted

  datatype Tier = Active | Medium | Rare

  /** One row of `activity_categories`. */
  datatype Policy = Policy(share: real, minSessions: nat, maxSessions: nat, minEvents: nat, maxEvents: nat)

  function PolicyOf(t: Tier): (pol: Policy)
    ensures 0 < pol.minSessions <= pol.maxSessions
    ensures 0 < pol.minEvents <= pol.maxEvents
  {
    match t
    case Active => Policy(0.20, 15, 30, 20, 40)
    case Medium => Policy(0.50, 8, 20, 10, 20)
    case Rare => Policy(0.30, 3, 8, 1, 10)
  }

  /** Position of a tier in the order active, medium, rare. */
  function Rank(t: Tier): nat
  {
    match t
    case Active => 0
    case Medium => 1
    case Rare => 2
  }

  /**
    `assign_activity_category`: a uniform draw below the active share is
    active, below the active and medium shares together is medium, and rare
    otherwise.
   */
  function AssignActivityCategory(r: Unit): (t: Tier)
    ensures t == Active <==> r < 0.2
    ensures t == Medium <==> 0.2 <= r < 0.7
    ensures t == Rare <==> 0.7 <= r
  {
    if r < PolicyOf(Active).share then Active
    else if r < PolicyOf(Active).share + PolicyOf(Medium).share then Medium
    else Rare
  }

  /** A larger draw never gives a more active tier. */
  lemma AssignActivityCategoryMonotone(r1: Unit, r2: Unit)
    requires r1 <= r2
    ensures Rank(AssignActivityCategory(r1)) <= Rank(AssignActivityCategory(r2))
  {
  }

  /** Every tier is the answer for some draw, and the shares add up to one. */
  lemma AssignActivityCategoryCoversTiers(t: Tier)
    ensures exists r: Unit :: AssignActivityCategory(r) == t
    ensures PolicyOf(Active).share + PolicyOf(Medium).share + PolicyOf(Rare).share == 1.0
  {
    var r: Unit := match t case Active => 0.0 case Medium => 0.2 case Rare => 0.7;
    assert AssignActivityCategory(r) == t;
  }

  // ---------------------------------------------------------------------------
  // Event-volume multiplier

  /** A multiplier in tenths: 10 is 1.0, 14 is 1.4, 15 is 1.5. */
  type Tenths = nat

  const Baseline: Tenths := 10

  /**
    `int(n * m)`. For every event bound of the table and the multipliers 1.0,
    1.4 and 1.5 the floating-point product is exact or rounds to the same
    integer, so the truncation is the integer quotient.
   */
  function Scale(n: nat, m: Tenths): nat
  {
    n * m / 10
  }

  lemma ScaleMonotone(a: nat, b: nat, m: Tenths)
    requires a <= b
    ensures Scale(a, m) <= Scale(b, m)
  {
    assert a * m <= b * m by {
      MulMonotone(a, b, m);
    }
  }

  lemma MulMonotone(a: nat, b: nat, m: nat)
    requires a <= b
    ensures a * m <= b * m
  {
  }

  /** The event-count range of a session: the tier's bounds scaled by the multiplier. */
  function EventBounds(t: Tier, m: Tenths): (b: (nat, nat))
    ensures b.0 <= b.1
    ensures m >= Baseline ==> PolicyOf(t).minEvents <= b.0
    ensures m == Baseline ==> b == (PolicyOf(t).minEvents, PolicyOf(t).maxEvents)
  {
    var pol := PolicyOf(t);
    ScaleMonotone(pol.minEvents, pol.maxEvents, m);
    ScaleMonotone(pol.minEvents * 10 / 10, pol.minEvents, Baseline);
    assert m >= Baseline ==> pol.minEvents * Baseline <= pol.minEvents * m by {
      if m >= Baseline {
        MulMonotone(Baseline, m, pol.minEvents);
      }
    }
    (Scale(pol.minEvents, m), Scale(pol.maxEvents, m))
  }

  /** `events_count = randint(int(min * m), int(max * m) + 1)` from draw p. */
  function EventsCountAt(s: Stream, p: nat, t: Tier, m: Tenths): (k: nat)
    ensures EventBounds(t, m).0 <= k <= EventBounds(t, m).1
  {
    var b := EventBounds(t, m);
    IntAt(s, p, b.0, b.1 + 1)
  }

  /** `total_sessions = randint(min_sessions, max_sessions + 1)` from draw p. */
  function SessionsCountAt(s: Stream, p: nat, t: Tier): (k: nat)
    ensures PolicyOf(t).minSessions <= k <= PolicyOf(t).maxSessions
  {
    IntAt(s, p, PolicyOf(t).minSessions, PolicyOf(t).maxSessions + 1)
  }

  // ---------------------------------------------------------------------------
  // Event vocabularies

  /** The primary event types, `event_types`. */
  datatype EventType =
    | ViewMainScreen | OpenDialog | SendMessage | OpenChat | SendSticker | BuyGift
    | BuyPremium | ReactToMessage | VoiceCall | VideoCall | SendVoiceMessage | SendVideoMessage

  /** The premium feature events, `premium_event_types`. */
  datatype Feature =
    | UseCustomEmoji | PostStory | VoiceToText | ExtraCloudStorage | EmojiStatusProfile
    | CustomProfile | TelegramAppIcon | AnimatedProfilePicture | ExtraReactions

  /** The `event_type` column: a primary event or a premium feature use. */
  datatype Kind = Primary(event: EventType) | Premium(feature: Feature)

  const EventTypes: seq<EventType> := [
    ViewMainScreen, OpenDialog, SendMessage, OpenChat, SendSticker,
    BuyGift, BuyPremium, ReactToMessage, VoiceCall, VideoCall,
    SendVoiceMessage, SendVideoMessage
  ]

  /** The integer weights passed to `random.choices` for `event_types`. */
  const EventWeights: seq<nat> := [10, 10, 15, 20, 10, 2, 0, 10, 5, 5, 8, 7]

  /** The keys of `premium_event_weights`, in dictionary order. */
  const PremiumFeatures: seq<Feature> := [
    VoiceToText, EmojiStatusProfile, ExtraReactions, PostStory, UseCustomEmoji,
    ExtraCloudStorage, CustomProfile, TelegramAppIcon, AnimatedProfilePicture
  ]

  /** The values of `premium_event_weights`, in permille. */
  const PremiumWeights: seq<nat> := [220, 100, 160, 120, 160, 80, 50, 50, 60]

  lemma EventWeightsFacts()
    ensures |EventTypes| == |EventWeights| == 12
    ensures EventTypes[6] == BuyPremium && EventWeights[6] == 0
    ensures forall i :: 0 <= i < |EventTypes| && i != 6 ==> EventTypes[i] != BuyPremium
  {
    var head, tail := EventTypes[..6], EventTypes[7..];
    assert head == [ViewMainScreen, OpenDialog, SendMessage, OpenChat, SendSticker, BuyGift];
    assert tail == [ReactToMessage, VoiceCall, VideoCall, SendVoiceMessage, SendVideoMessage];
    forall i | 0 <= i < |EventTypes| && i != 6
      ensures EventTypes[i] != BuyPremium
    {
      if i < 6 {
        assert EventTypes[i] == head[i];
      } else {
        assert EventTypes[i] == tail[i - 7];
      }
    }
  }

  lemma EventWeightsSum()
    ensures Sum(EventWeights) == 102
  {
    var w := EventWeights;
    assert Sum(w[8..]) == 25 by {
      assert w[8..] == [5, 5] + [8, 7];
      SumAppend([5, 5], [8, 7]);
    }
    assert Sum(w[4..]) == 47 by {
      assert w[4..] == [10, 2, 0, 10] + w[8..];
      SumAppend([10, 2, 0, 10], w[8..]);
    }
    assert w == [10, 10, 15, 20] + w[4..];
    SumAppend([10, 10, 15, 20], w[4..]);
  }

  lemma PremiumWeightsFacts()
    ensures |PremiumFeatures| == |PremiumWeights| && IsDistribution(PremiumWeights)
  {
  }

  /** One primary event type drawn by `random.choices` from draw p: never `buy_premium`. */
  function EventTypeAt(s: Stream, p: nat): (e: EventType)
    ensures e in EventTypes
    ensures e != BuyPremium
  {
    EventWeightsFacts();
    EventWeightsSum();
    ZeroWeightNeverChosen(EventTypes, EventWeights, s(p), 6);
    ChooseAt(s, p, EventTypes, EventWeights)
  }

  /** One premium feature drawn with `premium_event_weights` from draw p. */
  function PremiumFeatureAt(s: Stream, p: nat): (f: Feature)
    ensures f in PremiumFeatures
  {
    PremiumWeightsFacts();
    ChooseAt(s, p, PremiumFeatures, PremiumWeights)
  }

  // ---------------------------------------------------------------------------
  // Users and log rows

  /** The columns of `user_data` that event generation reads. */
  datatype User = User(id: int, tier: Tier, premium: bool, platform: Platform)

  datatype Platform = IOS | Android | Desktop | Web

  /** `assign_dominant_platform` of versions 3 and 4: `choice(["iOS", "Android"], p=[0.6, 0.4])`. */
  const DominantWeights: seq<nat> := [600, 400]

  /** A user's dominant platform from draw p: iOS for 600 of every 1000 residues, Android otherwise. */
  function DominantPlatformAt(s: Stream, p: nat): (platform: Platform)
    ensures platform == IOS || platform == Android
    ensures platform == IOS <==> s(p) % 1000 < 600
  {
    assert Sum(DominantWeights) == 1000;
    var x := s(p) % Sum(DominantWeights);
    var i := Pick(DominantWeights, x);
    assert Sum(DominantWeights[..1]) == 600;
    assert i == 0 <==> x < 600;
    [IOS, Android][i]
  }

  /** A row of the event log; `platform` is absent in the version 2 log. */
  datatype LogEvent = LogEvent(user: int, session: nat, time: int, kind: Kind, platform: Option<Platform>)

  /** `is_mobile = rand() < 0.80`: the user's own platform, otherwise desktop. */
  function SessionPlatformAt(s: Stream, p: nat, u: User): (platform: Platform)
    ensures platform == u.platform || platform == Desktop
    ensures UnitAt(s, p) < 0.8 ==> platform == u.platform
    ensures platform != u.platform ==> UnitAt(s, p) >= 0.8
  {
    if UnitAt(s, p) < 0.8 then u.platform else Desktop
  }

  /** Premium enrichment applies to a premium user's sessions with an elevated multiplier. */
  predicate Enriched(u: User, m: Tenths)
  {
    u.premium && m > Baseline
  }
}
