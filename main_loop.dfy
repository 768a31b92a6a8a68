/** The body of the poller's endless loop: read the Jakarta clock, run one
    cycle inside the trading window and pause five minutes, or sleep until the
    next window outside it. */
module MainLoop {
  import opened Scheduler
  import opened Normalizer
  import opened Store
  import opened Cycle
  import opened Sync

  /** One iteration of `while True`, for the clock reading `now`. `ran` says
      whether a cycle ran, `ok` what perform_bulk_updates returned (true when
      no cycle ran), `sleep` the pause that follows, in microseconds. */
  method Iterate(db: Database, now: LocalTime, provider: string -> Reply, ft: FloatText, stamp: string, detailStamp: string -> string)
    returns (ran: bool, ok: bool, sleep: nat)
    modifies db
    ensures ran == IsWithinTradingHours(now)
    ensures ran ==> sleep == CyclePause
                    && Ran(db.faults, old(db.tables), old(db.log), CyclePlan(old(db.tables), Collected(ft, provider, stamp, detailStamp)),
                           ok, db.tables, db.log)
    ensures !ran ==> ok && sleep == SleepUntilNextActiveWindow(now) && db.tables == old(db.tables) && db.log == old(db.log)
    ensures sleep == SleepOf(Step(now))
  {
    if IsWithinTradingHours(now) {
      ran := true;
      ok := PerformBulkUpdates(db, provider, ft, stamp, detailStamp);
      sleep := CyclePause;
    } else {
      ran, ok := false, true;
      sleep := SleepUntilNextActiveWindow(now);
    }
  }
}
