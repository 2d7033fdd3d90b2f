/**
  Instants as whole seconds from the midnight that starts a generator's
  calendar, so that every day begins at a multiple of `Day`.
 */
module Clock {

  const Minute: int := 60
  const Hour: int := 3600
  const Day: int := 86400

  /** The hour of the day of instant `t`, `t.hour` of a timestamp. */
  function HourOf(t: int): (h: nat)
    ensures h < 24
    ensures h * Hour <= t % Day < (h + 1) * Hour
  {
    (t % Day) / Hour
  }
}
