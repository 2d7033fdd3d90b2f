/**
  Version 1 of the Lavka generator: every user gets a number of sessions
  that depends on the user's type, each session a funnel chain, and the
  event table is all rows ordered by user and timestamp.
 */
module LavkaV1 {
  import opened Draws
  import opened Clock
  import opened Funnel
  import opened LavkaSessions
  import Sorting

  /** `num_sessions`: 30 to 70 for active users, 15 to 30 for medium, 3 to 10 for rare ones. */
  const Counts: CountTable := CountTable((30, 70), (15, 30), (3, 10))

  /** `START_DATE`, 2024-01-01, as a day of the calendar. */
  const OriginDay: int := 0

  /**
    `generate_sessions_for_user`: the rows of one user's sessions in the
    order they are generated; one `open_app` row per session, so as many
    as the user's type allows sessions.
   */
  function GenerateSessionsForUser(u: Customer, s: Stream, p: nat): (r: Drawn<seq<Row>>)
    ensures forall x <- r.value :: x.user == u.id && x.session.user == u.id
    ensures forall x <- r.value :: 7 <= HourOf(x.session.start) <= 22
    ensures forall x <- r.value :: x.session.start <= x.time <= x.session.start + 10 * Minute
    ensures forall x <- r.value :: x.step == FinishPay ==> IsValidPurchaseTime(x.time)
    ensures RangeOf(Counts, u.kind).0 <= CountOf(Steps(r.value), OpenApp) <= RangeOf(Counts, u.kind).1
  {
    var sessions := UserSessionsAt(u, Counts, OriginDay, V1Thresholds, s, p);
    OpenAppPerSession(sessions.value);
    Drawn(RowsOf(sessions.value), sessions.next)
  }

  /** `events_log` before sorting: the users' rows, user after user. */
  function EventsLog(users: seq<Customer>, s: Stream, p: nat): (r: Drawn<seq<Row>>)
    ensures forall x <- r.value :: exists u <- users :: x.user == u.id
    ensures forall x <- r.value :: x.step == FinishPay ==> IsValidPurchaseTime(x.time)
    decreases |users|
  {
    if |users| == 0 then Drawn([], p)
    else
      var mine := GenerateSessionsForUser(users[0], s, p);
      var rest := EventsLog(users[1..], s, mine.next);
      assert forall x <- rest.value :: exists u <- users :: x.user == u.id by {
        forall x <- rest.value
          ensures exists u <- users :: x.user == u.id
        {
          var u :| u in users[1..] && x.user == u.id;
          assert u in users;
        }
      }
      Drawn(mine.value + rest.value, rest.next)
  }

  /** `events_df`: the log's rows ordered by user and timestamp. */
  function EventsTable(users: seq<Customer>, s: Stream, p: nat): (r: seq<Row>)
    ensures Sorting.SortedBy(r, RowKey)
    ensures multiset(r) == multiset(EventsLog(users, s, p).value)
    ensures forall x <- r :: (exists u <- users :: x.user == u.id)
                             && (x.step == FinishPay ==> IsValidPurchaseTime(x.time))
  {
    SortRows(EventsLog(users, s, p).value)
  }
}
