/**
 * The countdown rule of src/countdown.rs. Instants are whole seconds of local
 * wall-clock time, the current instant is a parameter, and one day is 86400
 * seconds.
 */
module Countdown {
  import opened Primitives

  const SECONDS_PER_DAY: int := 86400

  type Instant = int

  /** The local day an instant falls on, counted from the epoch. */
  function Day(t: Instant): int { t / SECONDS_PER_DAY }

  /** Seconds since local midnight. */
  function TimeOfDay(t: Instant): int { t % SECONDS_PER_DAY }

  /** The countdown's target instant, fixed when it is built. */
  datatype Countdown = Countdown(time: Instant)

  /**
   * `from_hm`: today's date with the time of day `hour:min:00`. An hour of 24
   * or more or a minute of 60 or more makes `from_hms_opt` return `None`, and
   * the `unwrap` panics.
   */
  function FromHm(hour: u32, min: u32, now: Instant): (c: Countdown)
    requires hour < 24 && min < 60
    ensures Day(c.time) == Day(now)
    ensures TimeOfDay(c.time) == hour * 3600 + min * 60
  {
    Countdown(now - TimeOfDay(now) + hour * 3600 + min * 60)
  }

  /**
   * `get_duration`: the time from `now` to the target, the target being moved
   * one day later when it is strictly before `now`. Only one day is ever added.
   */
  function GetDuration(c: Countdown, now: Instant): (d: int)
    ensures now + d == c.time || now + d == c.time + SECONDS_PER_DAY
    ensures now + d == c.time <==> now <= c.time
    ensures now - SECONDS_PER_DAY < c.time <= now + SECONDS_PER_DAY ==>
              0 <= d <= SECONDS_PER_DAY && (c.time < now ==> 0 < d)
    ensures c.time <= now - SECONDS_PER_DAY ==> d <= 0
  {
    var time := if c.time < now then c.time + SECONDS_PER_DAY else c.time;
    time - now
  }

  /**
   * A countdown built from `hour:min` at `now` and read at that same `now`
   * reaches, within a day, an instant whose time of day is `hour:min:00`.
   */
  lemma FromHmNextOccurrence(hour: u32, min: u32, now: Instant)
    requires hour < 24 && min < 60
    ensures var d := GetDuration(FromHm(hour, min, now), now);
            0 <= d < SECONDS_PER_DAY && TimeOfDay(now + d) == hour * 3600 + min * 60
  {
  }
}
