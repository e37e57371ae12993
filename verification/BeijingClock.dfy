/** Instants are Unix milliseconds. A Beijing day is numbered from the Unix epoch; because the zone
    has a fixed offset, every day lasts exactly 24 hours and a date shift is a shift of day numbers. */
module BeijingClock {
  const DAY_MS := 86_400_000
  const ZONE_MS := 28_800_000

  function DayOf(instant: int): int {
    (instant + ZONE_MS) / DAY_MS
  }

  function StartOf(day: int): int {
    day * DAY_MS - ZONE_MS
  }

  /** A day is the half-open interval between two midnights. */
  lemma DayIsInterval(instant: int, day: int)
    ensures DayOf(instant) == day <==> StartOf(day) <= instant < StartOf(day + 1)
  {
  }
}
