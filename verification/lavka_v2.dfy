/**
  Version 2 of the Lavka generator: an abandoned-cart push experiment.

  A first pass generates every user's sessions as control sessions and
  records, for each user, the first session that abandoned its cart (or
  reached the payment page without finishing) and whose push instant, five
  minutes after the session start, falls in the campaign window. The
  eligible users, in a shuffled order, are split in half: the first half is
  the test group. A second pass generates every user's sessions afresh,
  with the raised payment probability for test users; it is this second
  pass that forms the event table. Every test user then receives one push
  at the recorded instant.

  The first pass consumes draws and its rows are discarded, so a recorded
  push instant belongs to a session that does not appear in the event table.
 */
module LavkaV2 {
  import opened Draws
  import opened Clock
  import opened Weighted
  import opened Funnel
  import opened LavkaSessions
  import Sorting

  /** `num_sessions`: 18 to 40 for active users, 8 to 18 for medium, 4 to 8 for rare ones. */
  const Counts: CountTable := CountTable((18, 40), (8, 18), (4, 8))

  /** `START_DATE`, 2024-02-01, as a day of the calendar that starts on 2024-01-01. */
  const OriginDay: int := 31

  /** The window of `push_abandon_cart`: 2024-02-05 00:00 to 2024-02-19 00:00, both included. */
  const CampaignStart: int := 35 * Day
  const CampaignEnd: int := 49 * Day

  /** The push instant of a session: five minutes after it starts. */
  const PushDelay: int := 5 * Minute

  /**
    The eligibility test of the first pass. It reads the chain as drawn, not
    the logged rows: a finished payment that the time gate dropped still
    counts as finished.
   */
  predicate Abandoned(chain: seq<Step>)
  {
    (PayPage in chain && FinishPay !in chain) || AbandonCart in chain
  }

  function PushTime(x: Session): int
  {
    x.id.start + PushDelay
  }

  predicate Qualifies(x: Session)
  {
    Abandoned(x.chain) && CampaignStart <= PushTime(x) <= CampaignEnd
  }

  /** The push instant a user keeps: that of the first qualifying session, if any. */
  function FirstPush(sessions: seq<Session>): (r: Option<int>)
    ensures r.None? <==> forall i :: 0 <= i < |sessions| ==> !Qualifies(sessions[i])
    ensures r.Some? ==> exists i :: 0 <= i < |sessions| && Qualifies(sessions[i])
                                    && r.value == PushTime(sessions[i])
                                    && forall j :: 0 <= j < i ==> !Qualifies(sessions[j])
    ensures r.Some? ==> CampaignStart <= r.value <= CampaignEnd
  {
    if |sessions| == 0 then None
    else if Qualifies(sessions[0]) then Some(PushTime(sessions[0]))
    else
      var rest := FirstPush(sessions[1..]);
      assert forall i :: 1 <= i < |sessions| ==> sessions[i] == sessions[1..][i - 1];
      rest
  }

  /** `(user_id, ts)` of `eligible_user_dict`, and of the two groups. */
  datatype Entry = Entry(user: int, ts: int)

  function Ids(entries: seq<Entry>): (ids: seq<int>)
    ensures |ids| == |entries|
    ensures forall i :: 0 <= i < |entries| ==> ids[i] == entries[i].user
  {
    seq(|entries|, i requires 0 <= i < |entries| => entries[i].user)
  }

  function CustomerIds(users: seq<Customer>): (ids: seq<int>)
    ensures |ids| == |users|
    ensures forall i :: 0 <= i < |users| ==> ids[i] == users[i].id
  {
    seq(|users|, i requires 0 <= i < |users| => users[i].id)
  }

  /** One user's part of the first pass: the sessions drawn for the user and the push instant they yield. */
  datatype UserPass = UserPass(sessions: seq<Session>, push: Option<int>)

  /** Some session of the user's first pass qualifies for a push. */
  predicate HasQualifying(x: UserPass)
  {
    exists k :: 0 <= k < |x.sessions| && Qualifies(x.sessions[k])
  }

  /**
    The push of a user's first pass is that of the first qualifying session,
    and there is one exactly when some session qualifies.
   */
  predicate PushOfFirstQualifying(x: UserPass)
  {
    && (x.push.Some? <==> HasQualifying(x))
    && (x.push.Some? ==> exists k :: 0 <= k < |x.sessions| && Qualifies(x.sessions[k])
                                     && x.push.value == PushTime(x.sessions[k])
                                     && forall j :: 0 <= j < k ==> !Qualifies(x.sessions[j]))
  }

  /** What one user's part of the first pass satisfies: the user's own sessions, and the push of the first qualifying one. */
  predicate PassOfUser(x: UserPass, user: int)
  {
    && (forall y <- x.sessions :: y.id.user == user)
    && PushOfFirstQualifying(x)
    && (x.push.Some? ==> CampaignStart <= x.push.value <= CampaignEnd)
  }

  /** One user of the first pass: the user's sessions drawn as control sessions, and the push instant they yield. */
  function FirstPushAt(u: Customer, s: Stream, p: nat): (r: Drawn<UserPass>)
    ensures r.value.sessions == UserSessionsAt(u, Counts, OriginDay, V2Thresholds(false), s, p).value
    ensures PassOfUser(r.value, u.id)
  {
    var mine := UserSessionsAt(u, Counts, OriginDay, V2Thresholds(false), s, p);
    assert forall x <- mine.value :: x.id.user == u.id;
    Drawn(UserPass(mine.value, FirstPush(mine.value)), mine.next)
  }

  /** The first pass over the user table: one `UserPass` per user, in table order, each drawn where the previous one stopped. */
  function FirstPass(users: seq<Customer>, s: Stream, p: nat): (r: Drawn<seq<UserPass>>)
    ensures |r.value| == |users|
    ensures forall i :: 0 <= i < |users| ==> PassOfUser(r.value[i], users[i].id)
    decreases |users|
  {
    if |users| == 0 then Drawn([], p)
    else
      var mine := FirstPushAt(users[0], s, p);
      var rest := FirstPass(users[1..], s, mine.next);
      assert forall i :: 1 <= i < |users| ==> users[i] == users[1..][i - 1];
      Drawn([mine.value] + rest.value, rest.next)
  }

  function Pushes(passes: seq<UserPass>): (r: seq<Option<int>>)
    ensures |r| == |passes|
    ensures forall i :: 0 <= i < |passes| ==> r[i] == passes[i].push
  {
    seq(|passes|, i requires 0 <= i < |passes| => passes[i].push)
  }

  /**
    `eligible_user_dict`, filled in table order: a user with a push is
    recorded unless already recorded, so the first push of a user wins, and
    the entries keep the order of insertion.
   */
  function Record(ids: seq<int>, pushes: seq<Option<int>>): (r: seq<Entry>)
    requires |ids| == |pushes|
    ensures RecordFacts(ids, pushes, r)
    decreases |ids|
  {
    if |ids| == 0 then []
    else
      var n := |ids| - 1;
      var acc := Record(ids[..n], pushes[..n]);
      RecordStep(ids, pushes, acc);
      match pushes[n]
      case None => acc
      case Some(t) => if ids[n] in Ids(acc) then acc else acc + [Entry(ids[n], t)]
  }

  /**
    What the dict holds: keys are distinct, no more than the users; a user is
    a key iff one of its rows has a push; its value is the push of its first
    such row.
   */
  ghost predicate RecordFacts(ids: seq<int>, pushes: seq<Option<int>>, r: seq<Entry>)
    requires |ids| == |pushes|
  {
    && |r| <= |ids|
    && Sorting.Distinct(Ids(r))
    && (forall u :: u in Ids(r) <==> exists i :: 0 <= i < |ids| && ids[i] == u && pushes[i].Some?)
    && (forall e <- r :: FirstPushOf(ids, pushes, e))
  }

  /** Row i is the first row of `e.user` with a push, and that push is `e.ts`. */
  predicate FirstPushOf(ids: seq<int>, pushes: seq<Option<int>>, e: Entry)
    requires |ids| == |pushes|
  {
    exists i :: 0 <= i < |ids| && ids[i] == e.user && pushes[i] == Some(e.ts)
                && forall j :: 0 <= j < i && ids[j] == e.user ==> pushes[j].None?
  }

  /** One more row of the table keeps the dict's facts. */
  lemma RecordStep(ids: seq<int>, pushes: seq<Option<int>>, acc: seq<Entry>)
    requires |ids| == |pushes| > 0
    requires RecordFacts(ids[..|ids| - 1], pushes[..|ids| - 1], acc)
    ensures var n := |ids| - 1;
            RecordFacts(ids, pushes, match pushes[n]
                                     case None => acc
                                     case Some(t) => if ids[n] in Ids(acc) then acc else acc + [Entry(ids[n], t)])
  {
    var n := |ids| - 1;
    var ids', pushes' := ids[..n], pushes[..n];
    FirstPushesKept(ids, pushes, acc);
    forall u
      ensures (exists i :: 0 <= i < |ids| && ids[i] == u && pushes[i].Some?)
              <==> (u in Ids(acc) || (ids[n] == u && pushes[n].Some?))
    {
      if i :| 0 <= i < |ids| && ids[i] == u && pushes[i].Some? {
        if i < n {
          assert ids'[i] == u && pushes'[i].Some?;
        }
      }
      if u in Ids(acc) {
        var i :| 0 <= i < n && ids'[i] == u && pushes'[i].Some?;
        assert ids[i] == u && pushes[i].Some?;
      }
    }
    match pushes[n]
    case None =>
    case Some(t) =>
      if ids[n] !in Ids(acc) {
        var e := Entry(ids[n], t);
        assert Ids(acc + [e]) == Ids(acc) + [ids[n]];
        forall j | 0 <= j < n && ids[j] == ids[n]
          ensures pushes[j].None?
        {
          assert ids'[j] == ids[j] && pushes'[j] == pushes[j];
        }
        assert FirstPushOf(ids, pushes, e);
      }
  }

  /** An entry recorded from a prefix of the table is still the first push of its user in the whole table. */
  lemma FirstPushesKept(ids: seq<int>, pushes: seq<Option<int>>, acc: seq<Entry>)
    requires |ids| == |pushes| > 0
    requires forall e <- acc :: FirstPushOf(ids[..|ids| - 1], pushes[..|ids| - 1], e)
    ensures forall e <- acc :: FirstPushOf(ids, pushes, e)
  {
    var n := |ids| - 1;
    var ids', pushes' := ids[..n], pushes[..n];
    forall e <- acc
      ensures FirstPushOf(ids, pushes, e)
    {
      assert FirstPushOf(ids', pushes', e);
      var i :| 0 <= i < n && ids'[i] == e.user && pushes'[i] == Some(e.ts)
               && forall j :: 0 <= j < i && ids'[j] == e.user ==> pushes'[j].None?;
      assert ids[i] == e.user && pushes[i] == Some(e.ts);
    }
  }

  /**
    The first pass and what it records: each user's sessions drawn as control
    sessions, and a user recorded once, with the push instant of its first
    qualifying session, in the order of the user table.
   */
  function EligibilityPass(users: seq<Customer>, s: Stream, p: nat): (r: Drawn<seq<Entry>>)
    ensures PassFacts(users, r.value)
    ensures RecordsFirstPushes(users, FirstPass(users, s, p).value, r.value)
  {
    var first := FirstPass(users, s, p);
    var r := Record(CustomerIds(users), Pushes(first.value));
    RecordOfFirstPass(users, first.value, r);
    Drawn(r, first.next)
  }

  /** The dict filled from the first pass's pushes records what `RecordsFirstPushes` and `PassFacts` say. */
  lemma RecordOfFirstPass(users: seq<Customer>, first: seq<UserPass>, r: seq<Entry>)
    requires |first| == |users|
    requires forall i :: 0 <= i < |users| ==> PassOfUser(first[i], users[i].id)
    requires RecordFacts(CustomerIds(users), Pushes(first), r)
    ensures PassFacts(users, r)
    ensures RecordsFirstPushes(users, first, r)
  {
    var ids, pushes := CustomerIds(users), Pushes(first);
    forall e <- r
      ensures CampaignStart <= e.ts <= CampaignEnd && e.user in ids
      ensures exists i :: 0 <= i < |users| && users[i].id == e.user && first[i].push == Some(e.ts)
                          && forall j :: 0 <= j < i && users[j].id == e.user ==> !HasQualifying(first[j])
    {
      assert FirstPushOf(ids, pushes, e);
      var i :| 0 <= i < |ids| && ids[i] == e.user && pushes[i] == Some(e.ts)
               && forall j :: 0 <= j < i && ids[j] == e.user ==> pushes[j].None?;
      assert PassOfUser(first[i], users[i].id);
      forall j | 0 <= j < i && users[j].id == e.user
        ensures !HasQualifying(first[j])
      {
        assert PassOfUser(first[j], users[j].id);
        assert ids[j] == e.user;
      }
    }
    forall u
      ensures u in Ids(r) <==> exists i :: 0 <= i < |users| && users[i].id == u && HasQualifying(first[i])
    {
      if u in Ids(r) {
        var i :| 0 <= i < |ids| && ids[i] == u && pushes[i].Some?;
        assert PassOfUser(first[i], users[i].id);
      }
      if i :| 0 <= i < |users| && users[i].id == u && HasQualifying(first[i]) {
        assert PassOfUser(first[i], users[i].id);
        assert ids[i] == u && pushes[i].Some?;
      }
    }
  }

  /**
    A user is recorded iff some session of the user's first pass qualifies,
    and is recorded with the push of the first user row that has one.
   */
  ghost predicate RecordsFirstPushes(users: seq<Customer>, first: seq<UserPass>, entries: seq<Entry>)
    requires |first| == |users|
  {
    && (forall u :: u in Ids(entries) <==> exists i :: 0 <= i < |users| && users[i].id == u && HasQualifying(first[i]))
    && (forall e <- entries :: exists i :: 0 <= i < |users| && users[i].id == e.user && first[i].push == Some(e.ts)
                                 && forall j :: 0 <= j < i && users[j].id == e.user ==> !HasQualifying(first[j]))
  }

  /**
    What the first pass records: at most one entry per user of the table,
    each for a user of the table and at an instant in the campaign window.
   */
  predicate PassFacts(users: seq<Customer>, entries: seq<Entry>)
  {
    && |entries| <= |users|
    && (forall e <- entries :: CampaignStart <= e.ts <= CampaignEnd)
    && (forall e <- entries :: e.user in CustomerIds(users))
    && Sorting.Distinct(Ids(entries))
  }

  // ---------------------------------------------------------------------------
  // Test and control groups

  /** `test_size = int(len * 0.5)`: the first half of the shuffled users, rounded down, is the test group. */
  function Split<T>(xs: seq<T>): (r: (seq<T>, seq<T>))
    ensures r.0 + r.1 == xs
    ensures |r.0| <= |r.1| <= |r.0| + 1
  {
    (xs[..|xs| / 2], xs[|xs| / 2..])
  }

  /** With distinct users, no user is in both halves and every user is in one. */
  lemma SplitPartitions(xs: seq<int>)
    requires Sorting.Distinct(xs)
    ensures var (test, control) := Split(xs);
            (forall u :: u in test ==> u !in control)
            && (forall u :: u in xs <==> u in test || u in control)
  {
    var (test, control) := Split(xs);
    forall u | u in test
      ensures u !in control
    {
      var i :| 0 <= i < |test| && test[i] == u;
      forall j | 0 <= j < |control|
        ensures control[j] != u
      {
        assert control[j] == xs[|test| + j] && test[i] == xs[i];
      }
    }
    assert xs == test + control;
  }

  /** `eligible_user_dict[user_id]`: the recorded instant of an eligible user. */
  function PushOf(eligible: seq<Entry>, u: int): (ts: int)
    requires u in Ids(eligible)
    ensures Entry(u, ts) in eligible
  {
    if eligible[0].user == u then eligible[0].ts
    else
      assert Ids(eligible) == [eligible[0].user] + Ids(eligible[1..]);
      PushOf(eligible[1..], u)
  }

  function EntriesOf(eligible: seq<Entry>, us: seq<int>): (r: seq<Entry>)
    requires forall u <- us :: u in Ids(eligible)
    ensures Ids(r) == us
    ensures forall e <- r :: e in eligible
  {
    seq(|us|, i requires 0 <= i < |us| => Entry(us[i], PushOf(eligible, us[i])))
  }

  datatype Groups = Groups(test: seq<Entry>, control: seq<Entry>)

  /**
    `test_group` and `control_group`: the shuffled eligible users split in
    half, each paired with the instant recorded for them.
   */
  function AssignGroups(eligible: seq<Entry>, shuffled: seq<int>): (g: Groups)
    requires multiset(shuffled) == multiset(Ids(eligible))
    ensures |g.test| == |eligible| / 2 && |g.control| == |eligible| - |eligible| / 2
    ensures forall e <- g.test :: e in eligible
    ensures forall e <- g.control :: e in eligible
    ensures Ids(g.test) + Ids(g.control) == shuffled
  {
    assert forall u <- shuffled :: u in Ids(eligible) by {
      forall u <- shuffled
        ensures u in Ids(eligible)
      {
        assert u in multiset(shuffled);
      }
    }
    var (test, control) := Split(shuffled);
    assert |shuffled| == |Ids(eligible)| by {
      assert |multiset(shuffled)| == |multiset(Ids(eligible))|;
    }
    Groups(EntriesOf(eligible, test), EntriesOf(eligible, control))
  }

  /**
    `random.shuffle`: for i from the last index down to 1, swap element i
    with element j, where j is drawn from [0, i].
   */
  function ShuffleAt(xs: seq<int>, s: Stream, p: nat): (r: Drawn<seq<int>>)
    ensures multiset(r.value) == multiset(xs)
    ensures r.next == p + (if |xs| == 0 then 0 else |xs| - 1)
  {
    if |xs| == 0 then Drawn(xs, p) else ShuffleDown(xs, |xs| - 1, s, p)
  }

  function ShuffleDown(xs: seq<int>, i: nat, s: Stream, p: nat): (r: Drawn<seq<int>>)
    requires i < |xs|
    ensures multiset(r.value) == multiset(xs)
    ensures r.next == p + i
    decreases i
  {
    if i == 0 then Drawn(xs, p)
    else
      var j := IntAt(s, p, 0, i + 1);
      var swapped := xs[i := xs[j]][j := xs[i]];
      SwapKeepsMultiset(xs, i, j);
      ShuffleDown(swapped, i - 1, s, p + 1)
  }

  lemma SwapKeepsMultiset(xs: seq<int>, i: nat, j: nat)
    requires i < |xs| && j < |xs|
    ensures multiset(xs[i := xs[j]][j := xs[i]]) == multiset(xs)
  {
  }

  /** A shuffle of distinct users keeps them distinct. */
  lemma ShuffleKeepsDistinct(ids: seq<int>, shuffled: seq<int>)
    requires Sorting.Distinct(ids) && multiset(shuffled) == multiset(ids)
    ensures Sorting.Distinct(shuffled)
  {
    forall i, j | 0 <= i < j < |shuffled|
      ensures shuffled[i] != shuffled[j]
    {
      var x := shuffled[i];
      DistinctCountsOnce(ids, x);
      assert shuffled == shuffled[..j] + [shuffled[j]] + shuffled[j + 1..];
      assert shuffled[..j][i] == x;
      assert multiset(shuffled)[x]
          == multiset(shuffled[..j])[x] + multiset([shuffled[j]])[x] + multiset(shuffled[j + 1..])[x];
    }
  }

  lemma {:induction false} DistinctCountsOnce(ids: seq<int>, x: int)
    requires Sorting.Distinct(ids)
    ensures multiset(ids)[x] <= 1
    decreases |ids|
  {
    if |ids| > 0 {
      assert ids == [ids[0]] + ids[1..];
      assert Sorting.Distinct(ids[1..]);
      DistinctCountsOnce(ids[1..], x);
      if ids[0] == x {
        assert x !in ids[1..];
      }
    }
  }

  /** Every eligible user lands in exactly one group. */
  lemma GroupsPartitionEligible(eligible: seq<Entry>, shuffled: seq<int>)
    requires Sorting.Distinct(Ids(eligible)) && multiset(shuffled) == multiset(Ids(eligible))
    ensures var g := AssignGroups(eligible, shuffled);
            (forall u :: u in Ids(g.test) ==> u !in Ids(g.control))
            && (forall u :: u in Ids(eligible) <==> u in Ids(g.test) || u in Ids(g.control))
  {
    ShuffleKeepsDistinct(Ids(eligible), shuffled);
    SplitPartitions(shuffled);
    var g := AssignGroups(eligible, shuffled);
    assert Ids(g.test) == Split(shuffled).0 && Ids(g.control) == Split(shuffled).1;
    forall u
      ensures u in Ids(eligible) <==> u in shuffled
    {
      assert u in Ids(eligible) <==> u in multiset(Ids(eligible));
    }
  }

  // ---------------------------------------------------------------------------
  // Touchpoints

  datatype Reaction = Clicked | Ignored | Converted

  const Reactions: seq<Reaction> := [Clicked, Ignored, Converted]

  /** `p=[0.3, 0.6, 0.1]`, in permille. */
  const ReactionWeights: seq<nat> := [300, 600, 100]

  /** The campaign every touchpoint belongs to. */
  const PushCampaign: string := "push_abandon_cart"

  datatype Touchpoint = Touchpoint(user: int, campaign: string, time: int, reaction: Reaction)

  /** The reaction of one push, from draw p of the numpy stream: converted for the top tenth of draws. */
  function ReactionAt(ns: Stream, p: nat): (r: Reaction)
    ensures r == Converted <==> ns(p) % 1000 >= 900
  {
    assert Sum(ReactionWeights) == 1000;
    var x := ns(p) % Sum(ReactionWeights);
    var i := Pick(ReactionWeights, x);
    assert ReactionWeights[..2] == [300, 600];
    assert Sum(ReactionWeights[..2]) == 900;
    assert i == 2 <==> x >= 900;
    Reactions[i]
  }

  /** One touchpoint per test user, at the instant recorded for them; reactions from the numpy stream. */
  function TouchpointsAt(test: seq<Entry>, ns: Stream, p: nat): (r: seq<Touchpoint>)
    ensures |r| == |test|
    ensures forall i :: 0 <= i < |test| ==>
              r[i].user == test[i].user && r[i].time == test[i].ts && r[i].campaign == PushCampaign
  {
    seq(|test|, i requires 0 <= i < |test| =>
      Touchpoint(test[i].user, PushCampaign, test[i].ts, ReactionAt(ns, p + i)))
  }

  /**
    Pushes reach exactly the test group: every test user is touched, no
    control user is, and every push lies in the campaign window when the
    groups come from the first pass.
   */
  lemma TouchpointsReachOnlyTest(eligible: seq<Entry>, shuffled: seq<int>, ns: Stream, p: nat)
    requires Sorting.Distinct(Ids(eligible)) && multiset(shuffled) == multiset(Ids(eligible))
    requires forall e <- eligible :: CampaignStart <= e.ts <= CampaignEnd
    ensures var g := AssignGroups(eligible, shuffled);
            var tps := TouchpointsAt(g.test, ns, p);
            (forall u :: (exists t <- tps :: t.user == u) <==> u in Ids(g.test))
            && (forall t <- tps :: t.user !in Ids(g.control))
            && (forall t <- tps :: CampaignStart <= t.time <= CampaignEnd)
  {
    GroupsPartitionEligible(eligible, shuffled);
    var g := AssignGroups(eligible, shuffled);
    var tps := TouchpointsAt(g.test, ns, p);
    forall u
      ensures (exists t <- tps :: t.user == u) <==> u in Ids(g.test)
    {
      if u in Ids(g.test) {
        var i :| 0 <= i < |g.test| && Ids(g.test)[i] == u;
        assert tps[i].user == u;
      }
      if t :| t in tps && t.user == u {
        var i :| 0 <= i < |tps| && tps[i] == t;
        assert Ids(g.test)[i] == u;
      }
    }
    forall t <- tps
      ensures t.user in Ids(g.test) && CampaignStart <= t.time <= CampaignEnd
    {
      var i :| 0 <= i < |tps| && tps[i] == t;
      assert Ids(g.test)[i] == t.user;
      assert g.test[i] in eligible;
    }
  }

  // ---------------------------------------------------------------------------
  // The experiment's event log

  /** The second pass: every user's sessions afresh, with the raised payment probability for test users. */
  function ExperimentLog(users: seq<Customer>, testIds: set<int>, s: Stream, p: nat): (r: Drawn<seq<Row>>)
    ensures LogFacts(users, r.value)
    decreases |users|
  {
    if |users| == 0 then Drawn([], p)
    else
      var mine := UserSessionsAt(users[0], Counts, OriginDay, V2Thresholds(users[0].id in testIds), s, p);
      var rest := ExperimentLog(users[1..], testIds, s, mine.next);
      LogCons(users, mine.value, FirstDayAt(OriginDay, s, p + 3), rest.value);
      Drawn(RowsOf(mine.value) + rest.value, rest.next)
  }

  /** Every row belongs to a user of the table, and no logged payment fails the purchase-hour gate. */
  predicate LogFacts(users: seq<Customer>, rows: seq<Row>)
  {
    forall x <- rows :: x.user in CustomerIds(users) && (x.step == FinishPay ==> IsValidPurchaseTime(x.time))
  }

  /** The first user's sessions in front of the rest of the log keep `LogFacts`. */
  lemma LogCons(users: seq<Customer>, sessions: seq<Session>, startDay: int, rest: seq<Row>)
    requires |users| > 0 && LogFacts(users[1..], rest)
    requires forall x <- sessions :: WellFormed(x, users[0].id, startDay)
    ensures LogFacts(users, RowsOf(sessions) + rest)
  {
    UserRows(sessions, users[0].id, startDay);
    assert CustomerIds(users) == [users[0].id] + CustomerIds(users[1..]);
  }

  /** `events_df` of the experiment: the second pass's rows ordered by user and timestamp. */
  function EventsTable(users: seq<Customer>, testIds: set<int>, s: Stream, p: nat): (r: seq<Row>)
    ensures Sorting.SortedBy(r, RowKey)
    ensures multiset(r) == multiset(ExperimentLog(users, testIds, s, p).value)
    ensures LogFacts(users, r)
  {
    SortRows(ExperimentLog(users, testIds, s, p).value)
  }

  /** What the script ends with: the recorded users, the two groups, the users of the test arm, the event table and the touchpoints. */
  datatype Outcome = Outcome(eligible: seq<Entry>, groups: Groups, testIds: set<int>, secondPass: nat, events: seq<Row>,
                             touchpoints: seq<Touchpoint>)

  /**
    How the steps fit together: the groups split the recorded users, the
    test arm is exactly the test group, and the pushes reach exactly the test
    arm, each at the instant its user was recorded with.
   */
  ghost predicate OutcomeFacts(r: Outcome)
  {
    GroupFacts(r) && PushFacts(r)
  }

  /** The groups split the recorded users, and the test arm is exactly the test group. */
  ghost predicate GroupFacts(r: Outcome)
  {
    && |r.groups.test| == |r.eligible| / 2
    && (forall u :: u in r.testIds <==> u in Ids(r.groups.test))
    && (forall u :: u in r.testIds ==> u !in Ids(r.groups.control))
    && (forall u :: u in Ids(r.eligible) <==> u in r.testIds || u in Ids(r.groups.control))
  }

  /** The pushes reach exactly the test arm, each at the instant its user was recorded with. */
  ghost predicate PushFacts(r: Outcome)
  {
    && (forall u :: (exists t <- r.touchpoints :: t.user == u) <==> u in r.testIds)
    && (forall t <- r.touchpoints :: Entry(t.user, t.time) in r.eligible)
  }

  /** `test_users_set`: the users of the test group. */
  function UsersOf(group: seq<Entry>): (r: set<int>)
    ensures forall u :: u in r <==> u in Ids(group)
  {
    set i | 0 <= i < |group| :: group[i].user
  }

  /** The groups drawn from a recorded pass satisfy `GroupFacts`, whatever the rest of the outcome. */
  lemma SplitOutcome(eligible: seq<Entry>, shuffled: seq<int>, start: nat, events: seq<Row>, tps: seq<Touchpoint>)
    requires Sorting.Distinct(Ids(eligible)) && multiset(shuffled) == multiset(Ids(eligible))
    ensures var g := AssignGroups(eligible, shuffled);
            GroupFacts(Outcome(eligible, g, UsersOf(g.test), start, events, tps))
  {
    GroupsPartitionEligible(eligible, shuffled);
  }

  /** The pushes of the test group satisfy `PushFacts`, whatever the rest of the outcome. */
  lemma PushOutcome(eligible: seq<Entry>, shuffled: seq<int>, ns: Stream, q: nat, start: nat, events: seq<Row>)
    requires Sorting.Distinct(Ids(eligible)) && multiset(shuffled) == multiset(Ids(eligible))
    requires forall e <- eligible :: CampaignStart <= e.ts <= CampaignEnd
    ensures var g := AssignGroups(eligible, shuffled);
            PushFacts(Outcome(eligible, g, UsersOf(g.test), start, events, TouchpointsAt(g.test, ns, q)))
  {
    var g := AssignGroups(eligible, shuffled);
    var tps := TouchpointsAt(g.test, ns, q);
    TouchpointsReachOnlyTest(eligible, shuffled, ns, q);
    forall t <- tps
      ensures Entry(t.user, t.time) in eligible
    {
      var i :| 0 <= i < |tps| && tps[i] == t;
      assert g.test[i] == Entry(t.user, t.time);
    }
  }

  /** The event table is the second pass, started at draw `r.secondPass`, with the test arm for exactly `r.testIds`. */
  ghost predicate SecondPassOf(users: seq<Customer>, s: Stream, r: Outcome)
  {
    r.events == EventsTable(users, r.testIds, s, r.secondPass)
  }

  /**
    The whole experiment: the first pass records the eligible users; their
    ids are shuffled and split into the groups; the second pass, drawn after
    the shuffle, runs the test arm for the test group's users and the control
    arm for everybody else; the test group is pushed.
   */
  function Experiment(users: seq<Customer>, s: Stream, p: nat, ns: Stream, q: nat): (r: Outcome)
    ensures r.eligible == EligibilityPass(users, s, p).value
    ensures r.secondPass == ShuffleAt(Ids(r.eligible), s, EligibilityPass(users, s, p).next).next
    ensures SecondPassOf(users, s, r)
    ensures OutcomeFacts(r)
  {
    var pass := EligibilityPass(users, s, p);
    var shuffled := ShuffleAt(Ids(pass.value), s, pass.next);
    var g := AssignGroups(pass.value, shuffled.value);
    var testIds := UsersOf(g.test);
    var start := shuffled.next;
    var events := EventsTable(users, testIds, s, start);
    var tps := TouchpointsAt(g.test, ns, q);
    var r := Outcome(pass.value, g, testIds, start, events, tps);
    assert r.eligible == pass.value && r.testIds == testIds && r.secondPass == start && r.events == events;
    assert SecondPassOf(users, s, r);
    SplitOutcome(pass.value, shuffled.value, start, events, tps);
    PushOutcome(pass.value, shuffled.value, ns, q, start, events);
    r
  }

  /**
    A session drawn in the test arm from the same draws as in the control
    arm starts at the same instant and takes every step the control session
    takes; it may add a finished payment, never remove one.
   */
  lemma TestSessionExtendsControlSession(user: int, startDay: int, s: Stream, p: nat)
    ensures var t := SessionAt(user, startDay, V2Thresholds(true), s, p).value;
            var k := SessionAt(user, startDay, V2Thresholds(false), s, p).value;
            t.id == k.id
            && (forall e :: e != FinishPay ==> (e in t.chain <==> e in k.chain))
            && (FinishPay in k.chain ==> FinishPay in t.chain)
  {
    TestChainExtendsControlChain(s, p + 3);
  }

  /**
    Eligibility reads the drawn chain: a session whose finished payment the
    time gate dropped (one starting at 22:59, say, paying a minute later)
    shows a payment page without a finish in the log, yet does not make its
    user eligible.
   */
  lemma DroppedPaymentIsNotAbandonment(user: int, start: int)
    requires !IsValidPurchaseTime(start + 60)
    ensures var chain := [OpenApp, AddToCart, PayPage, FinishPay];
            var rows := Emit(user, SessionId(user, start), chain, [start, start + 20, start + 40, start + 60]);
            PayPage in Steps(rows) && FinishPay !in Steps(rows) && !Abandoned(chain)
  {
    var chain := [OpenApp, AddToCart, PayPage, FinishPay];
    var times := [start, start + 20, start + 40, start + 60];
    assert FinishesLate(chain, times);
    EmitDropsLateFinish(user, SessionId(user, start), chain, times);
  }
}
