/** internal/config: clock arithmetic and the timing rules derived from the configuration. */
module Settings {
  import Unsubscribe

  /** Instants and durations in microseconds, the resolution of the database clock. */
  type Time = int

  const SECOND: Time := 1_000_000
  const MINUTE: Time := 60 * SECOND
  const DAY: Time := 24 * 60 * MINUTE

  datatype Config = Config(
    limitColdMin: int,
    limitColdMax: int,
    limitWarmDaily: int,
    coldMinMinutes: int,
    coldMaxMinutes: int,
    windowStartHour: int,
    windowStartMinute: int,
    windowEndHour: int,
    windowEndMinute: int,
    utcOffset: Time,
    maxRetryAttempts: int,
    retryDelayMinutes: int,
    accountCooldownMinutes: int,
    unsubscribeSet: set<string>)
  {
    /** What parseHHMM guarantees of both ends of the window. */
    predicate Valid() {
      0 <= windowStartHour <= 23 && 0 <= windowStartMinute <= 59 &&
      0 <= windowEndHour <= 23 && 0 <= windowEndMinute <= 59
    }

    predicate IsUnsubscribeReply(text: string) {
      Unsubscribe.Matches(unsubscribeSet, text)
    }

    function WindowStart(): Time {
      (windowStartHour * 60 + windowStartMinute) * MINUTE
    }

    function WindowEnd(): Time {
      (windowEndHour * 60 + windowEndMinute) * MINUTE
    }

    /** Start of the local calendar day that contains t, as an instant. */
    function DayStart(t: Time): Time {
      LocalDate(t) * DAY - utcOffset
    }

    function LocalDate(t: Time): int {
      (t + utcOffset) / DAY
    }

    predicate IsWithinWorkWindow(now: Time) {
      var start := DayStart(now) + WindowStart();
      var end := DayStart(now) + WindowEnd();
      !(now < start) && now < end
    }

    /** The values RandomColdInterval may return. */
    predicate IsColdInterval(d: Time) {
      var max := if coldMaxMinutes < coldMinMinutes then coldMinMinutes else coldMaxMinutes;
      exists minutes :: coldMinMinutes <= minutes <= max && d == minutes * MINUTE
    }

    /** The values GetOrCreateTenantDailyQuota may draw for a new row. */
    predicate IsColdLimit(limit: int) {
      var max := if limitColdMax < limitColdMin then limitColdMin else limitColdMax;
      limitColdMin <= limit <= max
    }

    /** The least spacing that any reservation enforces. */
    function MinSpacing(): (d: Time)
      ensures d >= 0
    {
      if coldMinMinutes < 0 then 0 else coldMinMinutes * MINUTE
    }

    function RetryDelay(): (d: Time)
      ensures d >= MINUTE
    {
      (if retryDelayMinutes < 1 then 15 else retryDelayMinutes) * MINUTE
    }

    function AccountCooldown(): (d: Time)
      ensures d >= MINUTE
    {
      (if accountCooldownMinutes < 1 then 60 else accountCooldownMinutes) * MINUTE
    }

    /** The attempt bound after ApplyRetryableFailure's own default. */
    function MaxAttempts(): (n: int)
      ensures n >= 1
    {
      EffectiveMaxAttempts(maxRetryAttempts)
    }

    function NextDayWorkStart(now: Time): Time {
      var start := DayStart(now) + WindowStart();
      if !(now < start) then start + DAY else start
    }
  }

  function EffectiveMaxAttempts(n: int): (m: int)
    ensures m >= 1
  {
    if n < 1 then 3 else n
  }

  function UtcDate(t: Time): int {
    t / DAY
  }

  /** The local clock shows the configured opening time. */
  predicate IsWindowOpening(c: Config, t: Time) {
    (t + c.utcOffset) % DAY == (c.windowStartHour * 60 + c.windowStartMinute) * MINUTE
  }

  /** The window by the local clock, in microseconds since midnight: from the opening to before the closing time. */
  lemma WorkWindowByClock(c: Config, now: Time)
    ensures var clock := (now + c.utcOffset) % 86_400_000_000;
            c.IsWithinWorkWindow(now) <==>
            c.windowStartHour * 3_600_000_000 + c.windowStartMinute * 60_000_000 <= clock &&
            clock < c.windowEndHour * 3_600_000_000 + c.windowEndMinute * 60_000_000
  {
  }

  /** The days by which usage and quotas are kept: from midnight to midnight, in UTC and at the configured offset. */
  lemma DatesByClock(c: Config, t: Time, d: int)
    ensures UtcDate(t) == d <==> d * 86_400_000_000 <= t < (d + 1) * 86_400_000_000
    ensures c.LocalDate(t) == d <==> d * 86_400_000_000 <= t + c.utcOffset < (d + 1) * 86_400_000_000
  {
  }

  lemma LocalDateBounds(c: Config, t: Time)
    ensures c.DayStart(t) <= t < c.DayStart(t) + DAY
  {
  }

  lemma LocalDateUnique(c: Config, t: Time, d: int)
    requires d * DAY <= t + c.utcOffset < (d + 1) * DAY
    ensures c.LocalDate(t) == d
  {
  }

  lemma SmallMod(a: nat, n: nat)
    requires a < n
    ensures a % n == a
  {
  }

  lemma OpeningWithinDay(c: Config, t: Time)
    ensures IsWindowOpening(c, t) <==> t - c.DayStart(t) == c.WindowStart()
  {
    assert (t + c.utcOffset) % DAY == t + c.utcOffset - c.LocalDate(t) * DAY;
  }

  lemma NextDayWorkStartOpens(c: Config, now: Time)
    requires c.Valid()
    ensures var n := c.NextDayWorkStart(now);
            now < n <= now + DAY && IsWindowOpening(c, n)
  {
    var n, d := c.NextDayWorkStart(now), c.LocalDate(now);
    assert 0 <= c.WindowStart() < DAY;
    LocalDateBounds(c, now);
    LocalDateUnique(c, n, if now < c.DayStart(now) + c.WindowStart() then d else d + 1);
    OpeningWithinDay(c, n);
  }

  /** NextDayWorkStart is the earliest window opening strictly after now. */
  lemma NextDayWorkStartIsEarliest(c: Config, now: Time, t: Time)
    requires c.Valid()
    ensures var n := c.NextDayWorkStart(now);
            now < n <= now + DAY && IsWindowOpening(c, n)
    ensures now < t && IsWindowOpening(c, t) ==> c.NextDayWorkStart(now) <= t
  {
    NextDayWorkStartOpens(c, now);
    if now < t && IsWindowOpening(c, t) {
      OpeningWithinDay(c, t);
      LocalDateBounds(c, now);
      LocalDateBounds(c, t);
      assert c.LocalDate(t) >= c.LocalDate(now);
    }
  }
}
