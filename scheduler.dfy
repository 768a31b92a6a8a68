/** The trading-window scheduler: when the poller runs a cycle and how long it
    sleeps. Time is Asia/Jakarta local time (UTC+7, no daylight saving), read
    as a day number and the microseconds elapsed since that day's midnight. */
module Scheduler {

  const MicrosPerSecond: nat := 1_000_000
  const MicrosPerMinute: nat := 60 * MicrosPerSecond
  const MicrosPerHour: nat := 60 * MicrosPerMinute
  const MicrosPerDay: nat := 24 * MicrosPerHour

  /** The trading window is the local hours [OpenHour, CloseHour). */
  const OpenHour: nat := 9
  const CloseHour: nat := 16

  /** The wake target outside the window: 09:10:00.000000. */
  const WakeTimeOfDay: nat := OpenHour * MicrosPerHour + 10 * MicrosPerMinute

  /** The fixed pause after every cycle: five minutes. */
  const CyclePause: nat := 5 * 60 * MicrosPerSecond

  /** A local wall-clock reading. */
  datatype Instant = Instant(day: int, micros: nat)

  type LocalTime = t: Instant | t.micros < MicrosPerDay witness Instant(0, 0)

  /** `now.hour` */
  function Hour(t: LocalTime): (h: nat)
    ensures h < 24
    ensures h * MicrosPerHour <= t.micros < (h + 1) * MicrosPerHour
  {
    t.micros / MicrosPerHour
  }

  /** Microseconds since midnight of day 0: the time line instants live on. */
  function Timeline(t: Instant): int {
    t.day * MicrosPerDay + t.micros
  }

  /** The instant `d` microseconds after `t` (datetime + timedelta). */
  function Advance(t: LocalTime, d: int): (u: LocalTime)
    ensures Timeline(u) == Timeline(t) + d
  {
    var m := Timeline(t) + d;
    Instant(m / MicrosPerDay, m % MicrosPerDay)
  }

  /** is_within_trading_hours: 9 <= hour < 16, that is, from 09:00:00.000000
      up to but not including 16:00:00.000000. */
  predicate IsWithinTradingHours(now: LocalTime): (r: bool)
    ensures r <==> OpenHour * MicrosPerHour <= now.micros < CloseHour * MicrosPerHour
  {
    OpenHour <= Hour(now) < CloseHour
  }

  /** sleep_until_next_active_window: the sleep in microseconds until 09:10 of
      the same day (before 09:00) or of the next day (from 16:00 on), and 0
      inside the window. */
  function SleepUntilNextActiveWindow(now: LocalTime): (d: int)
    ensures IsWithinTradingHours(now) ==> d == 0
    ensures Hour(now) < OpenHour ==>
              d > 0 && Timeline(now) + d == Timeline(Instant(now.day, WakeTimeOfDay))
    ensures Hour(now) >= CloseHour ==>
              d > 0 && Timeline(now) + d == Timeline(Instant(now.day + 1, WakeTimeOfDay))
  {
    if Hour(now) >= CloseHour then
      Timeline(Instant(now.day + 1, WakeTimeOfDay)) - Timeline(now)
    else if Hour(now) < OpenHour then
      WakeTimeOfDay - now.micros
    else
      0
  }

  /** What one iteration of the main loop does. */
  datatype Action =
    | RunCycleThenSleep(pause: nat)   // ACTIVE: one fetch-and-sync cycle, then a fixed pause
    | Sleep(duration: nat)            // DORMANT: no cycle, sleep until the next window

  function SleepOf(a: Action): nat {
    match a
    case RunCycleThenSleep(p) => p
    case Sleep(d) => d
  }

  /** One evaluation of the loop body against the clock reading `now`. */
  function Step(now: LocalTime): (a: Action)
    ensures a.RunCycleThenSleep? <==> IsWithinTradingHours(now)
    ensures a.RunCycleThenSleep? ==> a.pause == CyclePause
    ensures a.Sleep? ==> 0 < a.duration < MicrosPerDay
  {
    if IsWithinTradingHours(now) then RunCycleThenSleep(CyclePause)
    else Sleep(SleepUntilNextActiveWindow(now))
  }

  /** A DORMANT step wakes at 09:10 exactly, inside the trading window, on the
      same day when it went to sleep before 09:00 and on the next day when it
      went to sleep from 16:00 on. */
  lemma DormantWakesInWindow(now: LocalTime)
    requires !IsWithinTradingHours(now)
    ensures var wake := Advance(now, SleepOf(Step(now)));
            && wake.micros == WakeTimeOfDay
            && IsWithinTradingHours(wake)
            && wake.day == (if Hour(now) < OpenHour then now.day else now.day + 1)
  {
    var d := SleepOf(Step(now));
    var day := if Hour(now) < OpenHour then now.day else now.day + 1;
    assert Timeline(now) + d == day * MicrosPerDay + WakeTimeOfDay;
    DivModOfTimeline(day, WakeTimeOfDay);
  }

  /** A DORMANT sleep passes no trading hour except the first ten minutes of
      the window it wakes in: every instant strictly between the clock reading
      and the wake is outside the window or before 09:10 of the wake day. */
  lemma DormantSkipsOnlyTheOpeningMinutes(now: LocalTime, t: LocalTime)
    requires !IsWithinTradingHours(now)
    requires Timeline(now) < Timeline(t) < Timeline(now) + SleepOf(Step(now))
    ensures IsWithinTradingHours(t) ==>
              t.day == Advance(now, SleepOf(Step(now))).day && t.micros < WakeTimeOfDay
  {
    DormantWakesInWindow(now);
    var wake := Advance(now, SleepOf(Step(now)));
    if t.day < now.day || t.day > wake.day {
      assert false;
    }
  }

  /** Euclidean division splits a time-line position back into day and time. */
  lemma DivModOfTimeline(day: int, micros: nat)
    requires micros < MicrosPerDay
    ensures (day * MicrosPerDay + micros) / MicrosPerDay == day
    ensures (day * MicrosPerDay + micros) % MicrosPerDay == micros
  {
  }
}
