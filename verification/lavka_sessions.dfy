/**
  Sessions of the Lavka generators: when a session starts, how its chain
  becomes timestamped log rows, and the rule that a payment may only be
  logged between 07:00 and 23:00.

  Instants are whole seconds from 2024-01-01 00:00, so day `d` of the
  calendar starts at `d * Day`.
 */
module LavkaSessions {
  import opened Draws
  import opened Clock
  import opened Funnel
  import Sorting

  /** `is_valid_purchase_time`: from 07:00 up to, not including, 23:00. */
  predicate IsValidPurchaseTime(t: int)
  {
    7 <= HourOf(t) < 23
  }

  /**
    `session_time`: the user's first day plus 0 to 100 days, 7 to 22 hours
    and 0 to 59 minutes, from draws p, p+1, p+2.
   */
  function SessionStartAt(startDay: int, s: Stream, p: nat): (t: int)
    ensures startDay * Day + 7 * Hour <= t < (startDay + 100) * Day + 23 * Hour
    ensures 7 <= HourOf(t) <= 22
    ensures t % Day <= 22 * Hour + 59 * Minute
    ensures t % Minute == 0
  {
    var d := IntInclAt(s, p, 0, 100);
    var h := IntInclAt(s, p + 1, 7, 22);
    var m := IntInclAt(s, p + 2, 0, 59);
    var t := (startDay + d) * Day + h * Hour + m * Minute;
    assert t % Day == h * Hour + m * Minute by {
      DayRemainder(startDay + d, h * Hour + m * Minute);
    }
    assert t % Minute == 0 by {
      assert t == ((startDay + d) * 1440 + h * 60 + m) * Minute;
    }
    t
  }

  lemma DayRemainder(d: int, r: int)
    requires 0 <= r < Day
    ensures (d * Day + r) % Day == r
    ensures (d * Day + r) / Day == d
  {
  }

  /** The offset of event i: i times `randint(20, 60)` seconds from draw p + i. */
  function OffsetAt(i: nat, s: Stream, p: nat): (off: int)
    ensures 20 * i <= off <= 60 * i
    ensures IsOffset(i, off)
  {
    var k := IntInclAt(s, p + i, 20, 60);
    MulBounds(i, k, 20, 60);
    OffsetOfFactor(i, k);
    i * k
  }

  /** `off` is i times one whole number of seconds in [20, 60]: a multiple of i whose quotient lies in that range. */
  predicate IsOffset(i: nat, off: int)
  {
    if i == 0 then off == 0 else off % i == 0 && 20 <= off / i <= 60
  }

  /** Every factor in [20, 60] gives an offset, and every offset comes from one: `IsOffset` is "off == i * k for some k in [20, 60]". */
  lemma OffsetOfFactor(i: nat, k: int)
    requires 20 <= k <= 60
    ensures IsOffset(i, i * k)
  {
    if i > 0 {
      MulDiv(i, k);
    }
  }

  lemma FactorOfOffset(i: nat, off: int)
    requires IsOffset(i, off)
    ensures i == 0 || (20 <= off / i <= 60 && off == i * (off / i))
  {
  }

  lemma MulDiv(i: nat, k: int)
    requires i > 0
    ensures (i * k) % i == 0 && (i * k) / i == k
  {
    var q, r := (i * k) / i, (i * k) % i;
    assert i * k == i * q + r && 0 <= r < i;
    MulSub(i, k, q);
    if k > q {
      MulAtLeast(i, k - q);
    } else if k < q {
      MulAtLeast(i, q - k);
      MulSub(i, q, k);
    }
  }

  lemma MulSub(i: int, a: int, b: int)
    ensures i * (a - b) == i * a - i * b
  {
  }

  lemma {:induction false} MulAtLeast(i: nat, d: int)
    requires d >= 1
    ensures i * d >= i
    decreases d
  {
    if d > 1 {
      MulAtLeast(i, d - 1);
      MulSub(i, d, 1);
    }
  }

  lemma MulBounds(i: nat, k: int, lo: int, hi: int)
    requires lo <= k <= hi
    ensures lo * i <= i * k <= hi * i
  {
  }

  /** The timestamps of a chain of n steps from `start`; event i uses draw p + i. */
  function TimesAt(start: int, n: nat, s: Stream, p: nat): (ts: seq<int>)
    ensures |ts| == n
    ensures n > 0 ==> ts[0] == start
    ensures forall i :: 0 <= i < n ==> start + 20 * i <= ts[i] <= start + 60 * i
    ensures forall i :: 0 <= i < n ==> IsOffset(i, ts[i] - start)
  {
    seq(n, i requires 0 <= i < n => start + OffsetAt(i, s, p))
  }

  /** `session_id`: the user and the session's start instant, printed as date and time. */
  datatype SessionId = SessionId(user: int, start: int)

  /** A row of `events_log`. */
  datatype Row = Row(user: int, step: Step, time: int, session: SessionId)

  function Steps(rows: seq<Row>): (r: seq<Step>)
    ensures |r| == |rows|
    ensures forall i :: 0 <= i < |rows| ==> r[i] == rows[i].step
  {
    seq(|rows|, i requires 0 <= i < |rows| => rows[i].step)
  }

  /** `xs` without any occurrence of `x`. */
  function Without(xs: seq<Step>, x: Step): (r: seq<Step>)
    ensures x !in r
    ensures forall e :: e != x ==> (e in r <==> e in xs)
  {
    if |xs| == 0 then []
    else if xs[0] == x then Without(xs[1..], x)
    else [xs[0]] + Without(xs[1..], x)
  }

  /** How many times `e` occurs in `xs`. */
  function CountOf(xs: seq<Step>, e: Step): nat
  {
    if |xs| == 0 then 0 else (if xs[0] == e then 1 else 0) + CountOf(xs[1..], e)
  }

  lemma {:induction false} CountOfAppend(a: seq<Step>, b: seq<Step>, e: Step)
    ensures CountOf(a + b, e) == CountOf(a, e) + CountOf(b, e)
    decreases |a|
  {
    if |a| > 0 {
      assert (a + b)[1..] == a[1..] + b;
      CountOfAppend(a[1..], b, e);
    } else {
      assert a + b == b;
    }
  }

  lemma {:induction false} CountOfAbsent(xs: seq<Step>, e: Step)
    requires e !in xs
    ensures CountOf(xs, e) == 0
    decreases |xs|
  {
    if |xs| > 0 {
      assert forall x <- xs[1..] :: x in xs;
      CountOfAbsent(xs[1..], e);
    }
  }

  /** A chain opens the app exactly once. */
  lemma OpensOnce(chain: seq<Step>)
    requires 1 <= |chain| && chain[0] == OpenApp && Ordered(chain)
    ensures CountOf(chain, OpenApp) == 1
  {
    assert forall i :: 1 <= i < |chain| ==> Rank(chain[0]) < Rank(chain[i]);
    assert OpenApp !in chain[1..];
    CountOfAbsent(chain[1..], OpenApp);
  }

  /**
    The rows of one session: step i at `times[i]`, except that a finished
    payment whose instant fails `is_valid_purchase_time` is skipped.
   */
  function Emit(user: int, id: SessionId, chain: seq<Step>, times: seq<int>): (rows: seq<Row>)
    requires |chain| == |times|
    ensures |rows| <= |chain|
    ensures forall r <- rows :: r.user == user && r.session == id
    ensures forall r <- rows :: exists i :: 0 <= i < |chain| && r.step == chain[i] && r.time == times[i]
    ensures forall r <- rows :: r.step == FinishPay ==> IsValidPurchaseTime(r.time)
    decreases |chain|
  {
    if |chain| == 0 then []
    else
      var rest := Emit(user, id, chain[1..], times[1..]);
      assert forall r <- rest :: exists i :: 0 <= i < |chain| && r.step == chain[i] && r.time == times[i] by {
        forall r <- rest
          ensures exists i :: 0 <= i < |chain| && r.step == chain[i] && r.time == times[i]
        {
          var i :| 0 <= i < |chain[1..]| && r.step == chain[1..][i] && r.time == times[1..][i];
          assert r.step == chain[i + 1] && r.time == times[i + 1];
        }
      }
      if chain[0] == FinishPay && !IsValidPurchaseTime(times[0]) then rest
      else [Row(user, chain[0], times[0], id)] + rest
  }

  /** Every `finish_pay` of the chain falls inside the purchase hours. */
  predicate FinishesOnTime(chain: seq<Step>, times: seq<int>)
    requires |chain| == |times|
  {
    forall i :: 0 <= i < |chain| && chain[i] == FinishPay ==> IsValidPurchaseTime(times[i])
  }

  /** Every `finish_pay` of the chain falls outside the purchase hours. */
  predicate FinishesLate(chain: seq<Step>, times: seq<int>)
    requires |chain| == |times|
  {
    forall i :: 0 <= i < |chain| && chain[i] == FinishPay ==> !IsValidPurchaseTime(times[i])
  }

  lemma EmitCons(user: int, id: SessionId, chain: seq<Step>, times: seq<int>)
    requires |chain| == |times| > 0
    ensures !(chain[0] == FinishPay && !IsValidPurchaseTime(times[0])) ==>
              Steps(Emit(user, id, chain, times)) == [chain[0]] + Steps(Emit(user, id, chain[1..], times[1..]))
    ensures chain[0] == FinishPay && !IsValidPurchaseTime(times[0]) ==>
              Steps(Emit(user, id, chain, times)) == Steps(Emit(user, id, chain[1..], times[1..]))
  {
    var rest := Emit(user, id, chain[1..], times[1..]);
    assert Steps([Row(user, chain[0], times[0], id)] + rest) == [chain[0]] + Steps(rest);
  }

  /** With every payment instant valid, the rows carry the whole chain. */
  lemma {:induction false} EmitKeepsChain(user: int, id: SessionId, chain: seq<Step>, times: seq<int>)
    requires |chain| == |times| && FinishesOnTime(chain, times)
    ensures Steps(Emit(user, id, chain, times)) == chain
    decreases |chain|
  {
    if |chain| > 0 {
      assert FinishesOnTime(chain[1..], times[1..]) by {
        forall i | 0 <= i < |chain[1..]| && chain[1..][i] == FinishPay
          ensures IsValidPurchaseTime(times[1..][i])
        {
          assert chain[i + 1] == FinishPay;
        }
      }
      EmitKeepsChain(user, id, chain[1..], times[1..]);
      EmitCons(user, id, chain, times);
      assert chain == [chain[0]] + chain[1..];
    }
  }

  /** With every payment instant invalid, the rows carry the chain without `finish_pay`. */
  lemma {:induction false} EmitDropsLateFinish(user: int, id: SessionId, chain: seq<Step>, times: seq<int>)
    requires |chain| == |times| && FinishesLate(chain, times)
    ensures Steps(Emit(user, id, chain, times)) == Without(chain, FinishPay)
    decreases |chain|
  {
    if |chain| > 0 {
      assert FinishesLate(chain[1..], times[1..]) by {
        forall i | 0 <= i < |chain[1..]| && chain[1..][i] == FinishPay
          ensures !IsValidPurchaseTime(times[1..][i])
        {
          assert chain[i + 1] == FinishPay;
        }
      }
      EmitDropsLateFinish(user, id, chain[1..], times[1..]);
      EmitCons(user, id, chain, times);
    }
  }

  /** The gate never touches a step other than `finish_pay`: each occurs as often in the rows as in the chain. */
  lemma {:induction false} EmitKeepsOtherSteps(user: int, id: SessionId, chain: seq<Step>, times: seq<int>, e: Step)
    requires |chain| == |times|
    requires e != FinishPay
    ensures CountOf(Steps(Emit(user, id, chain, times)), e) == CountOf(chain, e)
    decreases |chain|
  {
    if |chain| > 0 {
      EmitKeepsOtherSteps(user, id, chain[1..], times[1..], e);
      var rest := Emit(user, id, chain[1..], times[1..]);
      if !(chain[0] == FinishPay && !IsValidPurchaseTime(times[0])) {
        assert Steps([Row(user, chain[0], times[0], id)] + rest) == [chain[0]] + Steps(rest);
        CountOfAppend([chain[0]], Steps(rest), e);
      }
    }
  }

  /**
    Every instant of a chain lies within ten minutes of a session start, so
    the gate never fails before 07:00, and it fails only for sessions that
    start after 22:00.
   */
  lemma GateFailsOnlyAfterTenPm(start: int, off: int)
    requires 7 <= HourOf(start) <= 22
    requires 0 <= off <= 10 * Minute
    ensures 7 <= HourOf(start + off)
    ensures !IsValidPurchaseTime(start + off) ==> HourOf(start) == 22
  {
    var d := start / Day;
    var r := start % Day;
    assert start == d * Day + r;
    assert r < 23 * Hour;
    DayRemainder(d, r + off);
    assert start + off == d * Day + (r + off);
  }

  /**
    An ordered chain has at most one `finish_pay`, so the rows carry either
    the whole chain or the chain without its payment.
   */
  lemma EmitLogsChain(user: int, id: SessionId, chain: seq<Step>, times: seq<int>)
    requires |chain| == |times| && Ordered(chain)
    ensures var steps := Steps(Emit(user, id, chain, times));
            steps == chain || steps == Without(chain, FinishPay)
  {
    if i :| 0 <= i < |chain| && chain[i] == FinishPay {
      assert forall j :: 0 <= j < |chain| && chain[j] == FinishPay ==> j == i;
      if IsValidPurchaseTime(times[i]) {
        EmitKeepsChain(user, id, chain, times);
      } else {
        EmitDropsLateFinish(user, id, chain, times);
      }
    } else {
      EmitKeepsChain(user, id, chain, times);
    }
  }

  /** One session, as `generate_sessions_for_user` and both passes of version 2 produce it. */
  datatype Session = Session(id: SessionId, chain: seq<Step>, rows: seq<Row>)

  /** What every generated session satisfies. */
  predicate WellFormed(x: Session, user: int, startDay: int)
  {
    && x.id.user == user
    && startDay * Day + 7 * Hour <= x.id.start < (startDay + 100) * Day + 23 * Hour
    && 7 <= HourOf(x.id.start) <= 22
    && 1 <= |x.chain| && x.chain[0] == OpenApp && Ordered(x.chain)
    && 1 <= |x.rows| && x.rows[0] == Row(user, OpenApp, x.id.start, x.id)
    && (forall r <- x.rows :: r.user == user && r.session == x.id)
    && (forall r <- x.rows :: x.id.start <= r.time <= x.id.start + 10 * Minute)
    && (forall r <- x.rows :: r.step in x.chain)
    && (forall r <- x.rows :: r.step == FinishPay ==> IsValidPurchaseTime(r.time))
    && (Steps(x.rows) == x.chain || Steps(x.rows) == Without(x.chain, FinishPay))
    && CountOf(Steps(x.rows), OpenApp) == 1
  }

  /**
    One session from draw p: its start (three draws), its chain, then one
    offset draw per step of the chain, including a step the gate drops.
   */
  function SessionAt(user: int, startDay: int, th: Thresholds, s: Stream, p: nat): (r: Drawn<Session>)
    ensures WellFormed(r.value, user, startDay)
    ensures r.value.chain == ChainOf(CoinsAt(th, s, p + 3).value)
    ensures FinishPay in r.value.chain && FinishPay !in Steps(r.value.rows) ==> HourOf(r.value.id.start) == 22
    ensures r.next == p + 3 + (CoinsAt(th, s, p + 3).next - (p + 3)) + |r.value.chain|
  {
    var start := SessionStartAt(startDay, s, p);
    var c := ChainAt(th, s, p + 3);
    var chain := c.value;
    var times := TimesAt(start, |chain|, s, c.next);
    var id := SessionId(user, start);
    var rows := Emit(user, id, chain, times);
    SessionRowsFacts(user, id, chain, times);
    Drawn(Session(id, chain, rows), c.next + |chain|)
  }

  /** The facts about one session's rows that follow from its chain and timestamps. */
  lemma SessionRowsFacts(user: int, id: SessionId, chain: seq<Step>, times: seq<int>)
    requires 1 <= |chain| <= |Canonical| && chain[0] == OpenApp && Ordered(chain)
    requires 7 <= HourOf(id.start) <= 22
    requires |times| == |chain| && times[0] == id.start
    requires forall i :: 0 <= i < |times| ==> id.start + 20 * i <= times[i] <= id.start + 60 * i
    ensures var rows := Emit(user, id, chain, times);
            && 1 <= |rows| && rows[0] == Row(user, OpenApp, id.start, id)
            && (forall r <- rows :: id.start <= r.time <= id.start + 10 * Minute)
            && (forall r <- rows :: r.step in chain)
            && (FinishPay in chain && FinishPay !in Steps(rows) ==> HourOf(id.start) == 22)
            && (Steps(rows) == chain || Steps(rows) == Without(chain, FinishPay))
            && CountOf(Steps(rows), OpenApp) == 1
  {
    var rows := Emit(user, id, chain, times);
    EmitLogsChain(user, id, chain, times);
    EmitKeepsOtherSteps(user, id, chain, times, OpenApp);
    OpensOnce(chain);
    forall r <- rows
      ensures id.start <= r.time <= id.start + 10 * Minute && r.step in chain
    {
      var i :| 0 <= i < |chain| && r.step == chain[i] && r.time == times[i];
    }
    if FinishPay in chain && FinishPay !in Steps(rows) {
      var i :| 0 <= i < |chain| && chain[i] == FinishPay;
      assert forall j :: 0 <= j < |chain| && chain[j] == FinishPay ==> j == i;
      assert IsValidPurchaseTime(times[i]) ==> Steps(rows) == chain by {
        if IsValidPurchaseTime(times[i]) {
          EmitKeepsChain(user, id, chain, times);
        }
      }
      assert chain[i] in chain;
      assert !IsValidPurchaseTime(times[i]);
      GateFailsOnlyAfterTenPm(id.start, times[i] - id.start);
    }
  }

  /** `n` sessions of one user from draw p, in the order they are generated. */
  function SessionsAt(user: int, startDay: int, th: Thresholds, n: nat, s: Stream, p: nat)
    : (r: Drawn<seq<Session>>)
    ensures |r.value| == n
    ensures forall x <- r.value :: WellFormed(x, user, startDay)
    ensures r.next >= p
    decreases n
  {
    if n == 0 then Drawn([], p)
    else
      var first := SessionAt(user, startDay, th, s, p);
      var rest := SessionsAt(user, startDay, th, n - 1, s, first.next);
      Drawn([first.value] + rest.value, rest.next)
  }

  /** The rows of a run of sessions, session after session. */
  function RowsOf(sessions: seq<Session>): (rows: seq<Row>)
    ensures forall x <- sessions, r <- x.rows :: r in rows
    ensures forall r <- rows :: exists x <- sessions :: r in x.rows
  {
    if |sessions| == 0 then []
    else sessions[0].rows + RowsOf(sessions[1..])
  }

  /** Every row of one user's well-formed sessions is the user's, and a logged finish lies inside the purchase hours. */
  lemma UserRows(sessions: seq<Session>, user: int, startDay: int)
    requires forall x <- sessions :: WellFormed(x, user, startDay)
    ensures forall r <- RowsOf(sessions) :: r.user == user && (r.step == FinishPay ==> IsValidPurchaseTime(r.time))
  {
    forall r <- RowsOf(sessions)
      ensures r.user == user && (r.step == FinishPay ==> IsValidPurchaseTime(r.time))
    {
      var x :| x in sessions && r in x.rows;
    }
  }

  lemma StepsAppend(a: seq<Row>, b: seq<Row>)
    ensures Steps(a + b) == Steps(a) + Steps(b)
  {
  }

  /** A run of sessions logs one `open_app` row per session. */
  lemma {:induction false} OpenAppPerSession(sessions: seq<Session>)
    requires forall x <- sessions :: CountOf(Steps(x.rows), OpenApp) == 1
    ensures CountOf(Steps(RowsOf(sessions)), OpenApp) == |sessions|
    decreases |sessions|
  {
    if |sessions| > 0 {
      assert forall x <- sessions[1..] :: x in sessions;
      OpenAppPerSession(sessions[1..]);
      StepsAppend(sessions[0].rows, RowsOf(sessions[1..]));
      CountOfAppend(Steps(sessions[0].rows), Steps(RowsOf(sessions[1..])), OpenApp);
    }
  }

  function RowKey(x: Row): Sorting.Key
  {
    (x.user, x.time)
  }

  /**
    `sort_values(by=['user_id', 'timestamp'])`: the same rows, ordered by
    user and then timestamp. Rows with equal user and timestamp keep their
    order in the log.
   */
  function SortRows(log: seq<Row>): (r: seq<Row>)
    ensures Sorting.SortedBy(r, RowKey)
    ensures multiset(r) == multiset(log)
    ensures forall x <- r :: x in log
    ensures forall k :: Sorting.WithKey(r, RowKey, k) == Sorting.WithKey(log, RowKey, k)
  {
    var sorted := Sorting.SortBy(log, RowKey);
    assert forall x <- sorted :: x in multiset(log);
    forall k
      ensures Sorting.WithKey(sorted, RowKey, k) == Sorting.WithKey(log, RowKey, k)
    {
      Sorting.SortByStable(log, RowKey, k);
    }
    sorted
  }

  // ---------------------------------------------------------------------------
  // Users

  /** `user_type`. */
  datatype UserType = Active | Medium | Rare

  /** A row of `user_df`, reduced to the columns session generation reads. */
  datatype Customer = Customer(id: int, kind: UserType)

  /** The closed `randint` ranges of `num_sessions` of one version. */
  datatype CountTable = CountTable(active: (nat, nat), medium: (nat, nat), rare: (nat, nat))

  predicate ValidTable(tab: CountTable)
  {
    tab.active.0 <= tab.active.1 && tab.medium.0 <= tab.medium.1 && tab.rare.0 <= tab.rare.1
  }

  function RangeOf(tab: CountTable, k: UserType): (nat, nat)
  {
    match k
    case Active => tab.active
    case Medium => tab.medium
    case Rare => tab.rare
  }

  /**
    `num_sessions`: the dictionary literal evaluates all three `randint`
    calls (draws p, p+1, p+2) before the user's type picks one of them.
   */
  function SessionCountAt(tab: CountTable, k: UserType, s: Stream, p: nat): (r: Drawn<nat>)
    requires ValidTable(tab)
    ensures RangeOf(tab, k).0 <= r.value <= RangeOf(tab, k).1
    ensures r.next == p + 3
  {
    var a := IntInclAt(s, p, tab.active.0, tab.active.1);
    var m := IntInclAt(s, p + 1, tab.medium.0, tab.medium.1);
    var x := IntInclAt(s, p + 2, tab.rare.0, tab.rare.1);
    Drawn(match k case Active => a case Medium => m case Rare => x, p + 3)
  }

  /** `start`: the user's first day, 0 to 10 days after `originDay`, from draw p. */
  function FirstDayAt(originDay: int, s: Stream, p: nat): (d: int)
    ensures originDay <= d <= originDay + 10
  {
    originDay + IntInclAt(s, p, 0, 10)
  }

  /** A user's sessions: their count (three draws), their first day, then the sessions. */
  function UserSessionsAt(u: Customer, tab: CountTable, originDay: int, th: Thresholds, s: Stream, p: nat)
    : (r: Drawn<seq<Session>>)
    requires ValidTable(tab)
    ensures RangeOf(tab, u.kind).0 <= |r.value| <= RangeOf(tab, u.kind).1
    ensures forall x <- r.value :: WellFormed(x, u.id, FirstDayAt(originDay, s, p + 3))
  {
    var n := SessionCountAt(tab, u.kind, s, p);
    SessionsAt(u.id, FirstDayAt(originDay, s, n.next), th, n.value, s, n.next + 1)
  }
}
