/**
 The Seoul calendar day of an instant, and the instant at which the current day began.
 Instants are milliseconds since the Unix epoch and may be negative.
 */
module Calendar {
  const KST_OFFSET_MS := 9 * 60 * 60 * 1000
  const DAY_MS := 24 * 60 * 60 * 1000

  /** The number of the Seoul day an instant falls in; day 0 is 1970-01-01 there. */
  function KstDay(instant: int): int {
    (instant + KST_OFFSET_MS) / DAY_MS
  }

  class Date {
    var time: int

    constructor (time: int)
      ensures this.time == time
    {
      this.time := time;
    }

    /** setUTCHours(0, 0, 0, 0): back to the last UTC midnight. */
    method SetToUtcMidnight()
      modifies this
      ensures time <= old(time) < time + DAY_MS && time % DAY_MS == 0
    {
      time := time - time % DAY_MS;
    }
  }

  /** The first instant of the current Seoul day. */
  method GetTodayStartUtc(now: int) returns (start: int)
    ensures start <= now < start + DAY_MS && KstDay(start) == KstDay(now)
    ensures start == TodayStart(now)
    ensures (start + 32400000) % 86400000 == 0 && now - start < 86400000
  {
    var shifted := new Date(now + KST_OFFSET_MS);
    shifted.SetToUtcMidnight();
    start := shifted.time - KST_OFFSET_MS;
    TodayStartIsUnique(now, start);
  }

  function TodayStart(now: int): int {
    DAY_MS * KstDay(now) - KST_OFFSET_MS
  }

  lemma TodayStartIsUnique(now: int, start: int)
    requires start <= now < start + DAY_MS && (start + KST_OFFSET_MS) % DAY_MS == 0
    ensures start == TodayStart(now) && KstDay(start) == KstDay(now)
  {
    var days := (start + KST_OFFSET_MS) / DAY_MS;
    assert start + KST_OFFSET_MS == DAY_MS * days;
    assert (now + KST_OFFSET_MS) / DAY_MS == days;
  }

  /** Comparing with the start of today is comparing Seoul days: nothing of yesterday, everything since. */
  lemma SinceTodayIff(instant: int, now: int)
    ensures instant >= TodayStart(now) <==> KstDay(instant) >= KstDay(now)
  {
  }

  lemma LaterDays(a: int, b: int)
    requires a <= b
    ensures KstDay(a) <= KstDay(b)
  {
  }
}
