# Anti-raid join handler

A model of the join handler of a Telegram anti-raid bot. The bot reacts to
every service message announcing new chat members. It drops the bot itself
and the configured admins from the joining members; the rest are the
*targets*. It appends one timestamp per target to the chat's history in a
process-wide ledger (`entry_times`), counts the history entries strictly
later than `now - TIME_WINDOW`, and, when that count is at least
`RAID_THRESHOLD`, bans every target of this message. It then deletes the
join message. The whole handler body sits in one `try`: the first call into
the Telegram client that raises ends the run, and the exception is logged.

Layout:

- `common.dfy`: `Wrappers` (Option) and `Settings`, the bot's constants
  (`RAID_THRESHOLD` = 4, `TIME_WINDOW` = 1 s, `ADMIN_IDS` = empty) and its
  scalar types. Time is an integer count of microseconds, the resolution of
  Python's `datetime`, so the window is 1 000 000 ticks.
- `members.dfy`: `Members`, the update and user records, and `Targets`,
  the filter that removes the bot and the admins.
- `window.dfy`: `Window`, the filtered copy of recent entries, its length
  (`WindowCount`) and an independent count by positions (`RecentPositions`).
- `moderation.dfy`: `Moderation`, the raid-mode ban loop. `BanAll` is its
  specification; `BanEach` is the loop.
- `anti_raid.dfy`: `AntiRaid`, the per-update decision `Decide`, the ledger
  transition `NextTimes`, the class `AntiRaidBot` that owns `entry_times`
  and runs `HandleJoin` step by step, and the lemmas about the decision.

The Telegram client enters as data. `now`, the bot's id and the admin list
are parameters of `HandleJoin`. A `Platform` value says which users' bans
raise and whether deleting the join message raises. The handler returns a
`Report`: the targets, the window count, whether it was a raid, the users
banned, whether the join message was deleted, and the fault that ended
the run early, if any.

Some behaviour of the code worth stating precisely, including features
that anti-raid bots often have and this one lacks:

- The code has no whitelist and no username, photo or account-age checks.
  Outside raid mode it bans nobody.
- The code keeps no ban statistics and sends no alert.
- The code never prunes the history. Counting builds a filtered copy.
- A failed ban is not isolated to its member. It ends the whole run, so later
  targets are not banned and the join message is not deleted.
- The join message is always deleted on a run that reaches that point.
  There is no setting that turns the delete off.
- A raid bans only the targets of the update that crossed the threshold.
  Users who joined earlier in the same window, when the count was still
  below the threshold, stay (see `AntiRaid.RaidOnFourthJoin`).
- Reading `entry_times[chat_id]` for the count goes through a `defaultdict`.
  So a chat gets an (empty) entry in the ledger even when the update had no
  targets. `AntiRaidBot.Entries` and `NextTimes` model this.

## Model

| member | source | states |
|---|---|---|
| `Members.NoNewMembers` | import_logging.py:55-56 | no contract; defines the early-return guard: the update has no message, or its message announces no new members |
| `Members.Exempt` | import_logging.py:75 | no contract; defines the filter condition: the user is the bot itself or its id is in the admin list |
| `Members.Ids` | import_logging.py:90-93 | no contract; defines the ids the ban calls are issued for, target by target |
| `Window.IsRecent` | import_logging.py:85 | no contract; defines the strict test `t > now - Window` |
| `Window.WindowCount` | import_logging.py:83-88 | no contract; defines `len(recent_entries)` as the length of `Recent` |
| `Window.Stamps` | import_logging.py:79-80 | no contract; defines the `k` copies of `now` that one update with `k` targets appends |
| `Moderation.BanAll` | import_logging.py:90-95 | no contract; defines the outcome of the ban loop over the target ids (its properties are `Moderation.BanAllSpec`) |
| `AntiRaid.History` | import_logging.py:79-84 | no contract; defines the `defaultdict` read `entry_times[chat]`, the empty list for an unseen chat |
| `AntiRaid.Decide` | import_logging.py:53-105 | no contract; defines the report of one handler run from the chat's history before the update (its properties are the lemmas below) |
| `AntiRaid.NextTimes` | import_logging.py:79-84 | no contract; defines the ledger after one update: that chat's history extended by one `now` per target |
| `Members.Targets` | import_logging.py:73-76 | a user is a target iff it is among the joining members and its id is neither the bot's nor in the admin list; there are never more targets than members |
| `Members.TargetsAppend` | import_logging.py:73-76 | filtering distributes over concatenation, so the targets keep the members' arrival order and each member is kept or dropped on its own |
| `Members.TargetsOfNonExempt` | import_logging.py:73-76 | when no joining member is the bot or an admin, the targets are the members themselves, in the same order |
| `Members.TargetsOfAllExempt` | import_logging.py:73-76 | when every joining member is the bot or an admin, there are no targets |
| `Members.TargetIdsNotExempt` | import_logging.py:73-76 | no target id is the bot's id or an admin's id |
| `Window.Recent` | import_logging.py:83-86 | the recent entries are exactly the history's timestamps strictly later than `now - Window`, with no upper bound, and never more than the history holds |
| `Window.RecentAppend` | import_logging.py:83-86 | the recent entries of a concatenated history are the recent entries of each part, in order |
| `Window.WindowCountIsPositionCount` | import_logging.py:83-86 | the window count equals the number of history positions holding a timestamp later than `now - Window` |
| `Window.StampsAreRecent` | import_logging.py:79-86 | timestamps equal to `now` are always inside the window, since the window is not empty |
| `Window.CountAfterRecording` | import_logging.py:79-86 | appending `k` copies of `now` raises the count at `now` by exactly `k` |
| `Window.WindowBoundIsStrict` | import_logging.py:85 | an entry exactly one window old is not counted, and one a tick younger is |
| `Moderation.BanAllSpec` | import_logging.py:90-95 | the bans issued are a prefix of the target ids, none of whose bans raised; they cover all targets iff no ban raises, and otherwise the run stops at the first target whose ban raises |
| `Moderation.BanEach` | import_logging.py:90-95 | the ban loop bans in target order and stops at the first ban that raises, with the outcome `BanAll` specifies |
| `AntiRaid.AntiRaidBot.constructor` | import_logging.py:51 | the ledger starts empty |
| `AntiRaid.AntiRaidBot.Append` | import_logging.py:80 | appending a timestamp extends that chat's history, an absent chat starting from the empty list, and changes no other chat |
| `AntiRaid.AntiRaidBot.Entries` | import_logging.py:84 | reading a chat's history returns it unchanged and stores the empty list for a chat not yet seen |
| `AntiRaid.AntiRaidBot.HandleJoin` | import_logging.py:53-105 | one handler run returns the report `Decide` gives for the chat's history before the update, and leaves the ledger as `NextTimes` gives it |
| `AntiRaid.IgnoredUpdate` | import_logging.py:55-56 | an update is ignored iff it has no message or no new members, and then the ledger is unchanged |
| `AntiRaid.LedgerOnlyGrows` | import_logging.py:79-86 | every chat's history before an update is a prefix of its history after; other chats are untouched; the update's chat gains exactly one copy of `now` per target |
| `AntiRaid.CountIncludesOwnTargets` | import_logging.py:79-88 | the targets are recorded before the count, so the count is the recent history plus the number of targets of this update |
| `AntiRaid.RaidIffThreshold` | import_logging.py:83-88 | raid mode holds iff the number of stored entries later than `now - Window`, this update's included, is at least the threshold (inclusive) |
| `AntiRaid.BurstAloneIsRaid` | import_logging.py:79-88 | an update with at least `RAID_THRESHOLD` targets is a raid even with an empty history |
| `AntiRaid.OnlyTargetsBanned` | import_logging.py:73-95 | the users banned are a prefix of the target ids, so the bot and the admins are never banned, in raid mode or not |
| `AntiRaid.NormalModeBansNobody` | import_logging.py:88-100 | outside raid mode nobody is banned, and the join message is deleted unless the delete raises |
| `AntiRaid.RaidBansEveryTarget` | import_logging.py:88-100 | in raid mode, when no ban raises, every target is banned exactly once in target order, and then the join message is deleted unless the delete raises |
| `AntiRaid.BanFailureAbortsRun` | import_logging.py:54-105 | a ban that raises happens only in raid mode and ends the run: the earlier targets are banned, no later one is, the join message is not deleted, and the appended timestamps stay |
| `AntiRaid.RejectedTargetFaults` | import_logging.py:88-100 | in raid mode, when target `j` is the first whose ban raises, the users banned are exactly the ids of the targets before `j`, the fault is that ban's, and the message is not deleted |
| `AntiRaid.NoTargetsBanNobody` | import_logging.py:73-100 | an update whose members are all exempt bans nobody and records nothing, and it is a raid iff the history alone reaches the threshold |
| `AntiRaid.NoTargetsRaidExample` | import_logging.py:79-95 | with the threshold's worth of joins already recorded at `now`, an update whose only member is the bot is a raid that bans nobody |
| `AntiRaid.FirstJoinsAreNotRaids` | import_logging.py:73-88 | from an empty ledger, two joins at 0 s and one at 0.5 s count 2 and 3, are not raids and ban nobody, and leave the history `[0, 0, 500_000]` |
| `AntiRaid.RaidOnFourthJoin` | import_logging.py:79-100 | joins at 0 s (two), 0.5 s and 0.9 s: the third update is a raid with count 4 that bans only its own target and deletes the message |
| `AntiRaid.CountStartsOverAfterWindow` | import_logging.py:83-88 | after that history, a join at 2 s counts alone and is not a raid |

## Left out

- Logging and console output (import_logging.py:22-48 and every `print` and `logger` call): they decide nothing.
- `start`, `main`, the `Application` and `run_polling` (import_logging.py:107-138): command menu and process start-up, outside the handler.
- The wall clock: `datetime.now()` and `timedelta` become the integer parameter `now` and the constant `Window` in microseconds. The handler's behaviour near the ends of `datetime`'s range, where `now - timedelta` could raise, is not modelled.
- The Telegram client: `ban_chat_member(..., revoke_messages=True)` and `message.delete()` become outcomes given by the `Platform` parameter. Whether a ban raises depends only on the user's id. The revocation of the banned users' messages is not modelled.
- Exceptions other than a raising ban or delete (for example a malformed update without a chat) are not modelled.
- async/await and concurrent dispatch: the model handles one update at a time.
- The display fields of a user (`username`, `full_name`) are carried but only printed by the source, so no contract mentions them.
