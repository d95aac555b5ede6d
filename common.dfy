/** Option, the stock wrapper for a value that may be absent. */
module Wrappers {
  datatype Option<+T> = None | Some(value: T)
}

/**
 * The module-level configuration of the bot (import_logging.py:16-19) and
 * the scalar types the handler works with.
 */
module Settings {
  /** Telegram chat and user identifiers are integers. */
  type ChatId = int
  type UserId = int

  /**
   * A point in time, in microseconds: the resolution of the `datetime`
   * values the handler takes from the wall clock.
   */
  type Tick = int

  const TicksPerSecond: nat := 1_000_000

  /** ADMIN_IDS: the members the handler never treats as raiders (empty as shipped). */
  const AdminIds: seq<UserId> := []

  /** RAID_THRESHOLD: this many recent joins or more make a raid. */
  const RaidThreshold: nat := 4

  /** TIME_WINDOW, in seconds, and the same span in ticks. */
  const TimeWindowSeconds: nat := 1
  const Window: nat := TimeWindowSeconds * TicksPerSecond
}
