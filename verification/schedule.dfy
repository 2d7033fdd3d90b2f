/**
  Session scheduling shared by versions 2 and 3 of the Telegram generator:
  the purchase instant of a premium user, sessions placed around it with an
  elevated event multiplier on and after the purchase, and the sessions of a
  regular user in the first month.
 */
module Schedule {
  import opened Draws
  import opened Clock
  import opened Activity

  /** A scheduled session: its fresh id, its date and its event multiplier. */
  datatype SessionPlan = SessionPlan(id: nat, date: int, mult: Tenths)

  /** `premium_date`: a whole number of days in [5, 25] after the start plus a second of that day. */
  function PurchaseInstant(start: int, s: Stream, p: nat): (t: int)
    ensures start + 5 * Day <= t < start + 26 * Day
  {
    start + IntAt(s, p, 5, 26) * Day + IntAt(s, p + 1, 0, Day)
  }

  /** The multiplier rule: `elevated` on and after the purchase instant, 1.0 before it. */
  function Multiplier(date: int, premiumDate: int, elevated: Tenths): (m: Tenths)
    ensures m == elevated <==> date >= premiumDate || elevated == Baseline
    ensures m == Baseline <==> date < premiumDate || elevated == Baseline
  {
    if date >= premiumDate then elevated else Baseline
  }

  /**
    Sessions of a premium user: each placed a whole number of days in
    [-10, 9] from the purchase instant, with the multiplier rule.
   */
  function PremiumSessions(premiumDate: int, elevated: Tenths, n: nat, s: Stream, p: nat, nextId: nat)
    : (r: Drawn<seq<SessionPlan>>)
    ensures |r.value| == n
    ensures forall i :: 0 <= i < n ==> r.value[i].id == nextId + i
    ensures forall pl <- r.value :: exists d :: -10 <= d <= 9 && pl.date == premiumDate + d * Day
    ensures forall pl <- r.value :: pl.mult == (if pl.date >= premiumDate then elevated else Baseline)
    ensures r.next == p + n
    decreases n
  {
    if n == 0 then
      Drawn([], p)
    else
      var offset := IntAt(s, p, -10, 10);
      var date := premiumDate + offset * Day;
      var rest := PremiumSessions(premiumDate, elevated, n - 1, s, p + 1, nextId + 1);
      Drawn([SessionPlan(nextId, date, Multiplier(date, premiumDate, elevated))] + rest.value, rest.next)
  }

  /** Sessions of a regular user: on one of the first 31 days, at baseline volume. */
  function RegularSessions(start: int, n: nat, s: Stream, p: nat, nextId: nat): (r: Drawn<seq<SessionPlan>>)
    ensures |r.value| == n
    ensures forall i :: 0 <= i < n ==> r.value[i].id == nextId + i
    ensures forall pl <- r.value :: exists d :: 0 <= d <= 30 && pl.date == start + d * Day
    ensures forall pl <- r.value :: pl.mult == Baseline
    ensures r.next == p + n
    decreases n
  {
    if n == 0 then
      Drawn([], p)
    else
      var date := start + IntAt(s, p, 0, 31) * Day;
      var rest := RegularSessions(start, n - 1, s, p + 1, nextId + 1);
      Drawn([SessionPlan(nextId, date, Baseline)] + rest.value, rest.next)
  }

  /** Sessions dated before the purchase instant are never enriched. */
  lemma NoEnrichmentBeforePurchase(u: User, premiumDate: int, elevated: Tenths, pl: SessionPlan)
    requires pl.mult == (if pl.date >= premiumDate then elevated else Baseline)
    requires Enriched(u, pl.mult)
    ensures premiumDate <= pl.date
  {
  }
}
