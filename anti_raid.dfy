/**
 * The join handler `anti_raid` (import_logging.py:53-105) and the ledger it
 * keeps, `entry_times` (import_logging.py:51).
 *
 * On every update announcing new members the handler drops the bot and the
 * admins, appends one timestamp per remaining member ("target") to the
 * chat's history, counts the history entries inside the window ending now,
 * bans every target of this update when that count reaches the threshold,
 * and finally deletes the join message. Everything runs inside one `try`:
 * the first call into the Telegram client that raises ends the run.
 */
module AntiRaid {
  import opened Wrappers
  import opened Settings
  import opened Members
  import opened Window
  import opened Moderation

  /**
   * How the Telegram client answers the handler's calls: the users whose
   * `ban_chat_member` raises, and whether `message.delete()` raises.
   */
  datatype Platform = Platform(banRejects: set<UserId>, deleteRaises: bool)

  /** The exception that ended a run early; the handler catches and logs it. */
  datatype Fault = BanRaised(user: UserId) | DeleteRaised

  /** What one handler run did. */
  datatype Report =
    | Ignored
    | Handled(targets: seq<User>, recentCount: nat, raid: bool,
              banned: seq<UserId>, deleted: bool, fault: Option<Fault>)

  type Ledger = map<ChatId, seq<Tick>>

  /** `entry_times[chat]`, the empty list for a chat the ledger has not seen. */
  function History(times: Ledger, chat: ChatId): seq<Tick>
  {
    if chat in times then times[chat] else []
  }

  /**
   * The handler's decision for one update, given the chat's history before
   * it: targets are recorded first, then the window is counted once.
   */
  function Decide(history: seq<Tick>, update: Update, botId: UserId, admins: seq<UserId>,
                  now: Tick, platform: Platform): Report
  {
    if NoNewMembers(update) then Ignored
    else
      var targets := Targets(update.message.value.newChatMembers, botId, admins);
      var count := WindowCount(history + Stamps(now, |targets|), now);
      var raid := count >= RaidThreshold;
      var run := if raid then BanAll(Ids(targets), platform.banRejects) else BanRun([], None);
      var fault :=
        if run.failedOn.Some? then Some(BanRaised(run.failedOn.value))
        else if platform.deleteRaises then Some(DeleteRaised)
        else None;
      Handled(targets, count, raid, run.banned, fault.None?, fault)
  }

  /**
   * The ledger after one update. It does not depend on the platform: the
   * timestamps are appended before any call that could raise.
   */
  function NextTimes(times: Ledger, update: Update, botId: UserId, admins: seq<UserId>, now: Tick): Ledger
  {
    if NoNewMembers(update) then times
    else
      var targets := Targets(update.message.value.newChatMembers, botId, admins);
      times[update.chatId := History(times, update.chatId) + Stamps(now, |targets|)]
  }

  /** The bot process: its only state is the join ledger. */
  class AntiRaidBot {
    /** `entry_times`: per chat, one timestamp per recorded target; never pruned. */
    var entryTimes: Ledger

    /** `defaultdict(list)`: no chat has a history yet. */
    constructor ()
      ensures entryTimes == map[]
    {
      entryTimes := map[];
    }

    /** `entry_times[chat].append(t)`. */
    method Append(chat: ChatId, t: Tick)
      modifies this
      ensures entryTimes == old(entryTimes)[chat := History(old(entryTimes), chat) + [t]]
    {
      entryTimes := entryTimes[chat := History(entryTimes, chat) + [t]];
    }

    /** Reading `entry_times[chat]`: the defaultdict stores the empty list for an absent chat. */
    method Entries(chat: ChatId) returns (entries: seq<Tick>)
      modifies this
      ensures entries == History(old(entryTimes), chat)
      ensures entryTimes == old(entryTimes)[chat := entries]
    {
      entries := History(entryTimes, chat);
      entryTimes := entryTimes[chat := entries];
    }

    /** `anti_raid`, for one update received at `now`. */
    method HandleJoin(update: Update, botId: UserId, admins: seq<UserId>, now: Tick, platform: Platform)
      returns (report: Report)
      modifies this
      ensures report == Decide(History(old(entryTimes), update.chatId), update, botId, admins, now, platform)
      ensures entryTimes == NextTimes(old(entryTimes), update, botId, admins, now)
    {
      if update.message.None? || update.message.value.newChatMembers == [] {
        return Ignored;
      }
      var chat := update.chatId;
      var targets := Targets(update.message.value.newChatMembers, botId, admins);
      ghost var before := History(entryTimes, chat);

      var i := 0;
      while i < |targets|
        invariant 0 <= i <= |targets|
        invariant entryTimes == if i == 0 then old(entryTimes) else old(entryTimes)[chat := before + Stamps(now, i)]
      {
        ghost var prev := entryTimes;
        assert History(prev, chat) == before + Stamps(now, i);
        Append(chat, now);
        assert before + Stamps(now, i + 1) == before + Stamps(now, i) + [now];
        assert entryTimes == old(entryTimes)[chat := before + Stamps(now, i + 1)];
        i := i + 1;
      }

      var history := Entries(chat);
      assert history == before + Stamps(now, |targets|);
      assert entryTimes == NextTimes(old(entryTimes), update, botId, admins, now);
      var count := WindowCount(history, now);
      var raid := count >= RaidThreshold;
      var banned: seq<UserId> := [];
      var failedOn: Option<UserId> := None;
      if raid {
        banned, failedOn := BanEach(Ids(targets), platform.banRejects);
      }
      if failedOn.Some? {
        return Handled(targets, count, raid, banned, false, Some(BanRaised(failedOn.value)));
      }
      var deleted := !platform.deleteRaises;
      report := Handled(targets, count, raid, banned, deleted, if deleted then None else Some(DeleteRaised));
    }
  }

  /** The new members of an update that has some. */
  function Joining(update: Update): seq<User>
    requires !NoNewMembers(update)
  {
    update.message.value.newChatMembers
  }

  /**
   * An update without a message, or without new members, is ignored and
   * leaves the ledger exactly as it was.
   */
  lemma IgnoredUpdate(times: Ledger, update: Update, botId: UserId, admins: seq<UserId>, now: Tick, platform: Platform)
    ensures Decide(History(times, update.chatId), update, botId, admins, now, platform).Ignored? <==> NoNewMembers(update)
    ensures NoNewMembers(update) ==> NextTimes(times, update, botId, admins, now) == times
  {
  }

  /**
   * The ledger only grows: handling an update appends one copy of `now` per
   * target to that chat's history and leaves every other chat alone.
   * Counting prunes nothing.
   */
  lemma LedgerOnlyGrows(times: Ledger, update: Update, botId: UserId, admins: seq<UserId>, now: Tick)
    ensures forall c :: History(times, c) <= History(NextTimes(times, update, botId, admins, now), c)
    ensures forall c :: c != update.chatId ==>
              History(NextTimes(times, update, botId, admins, now), c) == History(times, c)
    ensures !NoNewMembers(update) ==>
              History(NextTimes(times, update, botId, admins, now), update.chatId)
              == History(times, update.chatId) + Stamps(now, |Targets(Joining(update), botId, admins)|)
  {
  }

  /**
   * The targets are recorded before the window is counted, so the count
   * includes the update's own targets on top of the recent history.
   */
  lemma CountIncludesOwnTargets(times: Ledger, update: Update, botId: UserId, admins: seq<UserId>, now: Tick, platform: Platform)
    requires !NoNewMembers(update)
    ensures var r := Decide(History(times, update.chatId), update, botId, admins, now, platform);
            r.targets == Targets(Joining(update), botId, admins) &&
            r.recentCount == WindowCount(History(times, update.chatId), now) + |r.targets|
  {
    CountAfterRecording(History(times, update.chatId), now, |Targets(Joining(update), botId, admins)|);
  }

  /**
   * Raid mode holds exactly when the number of stored entries later than
   * `now - Window`, this update's included, is at least the threshold.
   */
  lemma RaidIffThreshold(times: Ledger, update: Update, botId: UserId, admins: seq<UserId>, now: Tick, platform: Platform)
    requires !NoNewMembers(update)
    ensures var r := Decide(History(times, update.chatId), update, botId, admins, now, platform);
            var stored := History(NextTimes(times, update, botId, admins, now), update.chatId);
            r.recentCount == |RecentPositions(stored, now)| &&
            (r.raid <==> |RecentPositions(stored, now)| >= RaidThreshold)
  {
    var k := |Targets(Joining(update), botId, admins)|;
    WindowCountIsPositionCount(History(times, update.chatId) + Stamps(now, k), now);
  }

  /** A single update with at least `RaidThreshold` targets is a raid, whatever the history. */
  lemma BurstAloneIsRaid(times: Ledger, update: Update, botId: UserId, admins: seq<UserId>, now: Tick, platform: Platform)
    requires !NoNewMembers(update)
    requires |Targets(Joining(update), botId, admins)| >= RaidThreshold
    ensures Decide(History(times, update.chatId), update, botId, admins, now, platform).raid
  {
    CountIncludesOwnTargets(times, update, botId, admins, now, platform);
  }

  /**
   * Only targets are ever banned, in target order and at most once per
   * target: the bot and the admins never are, raid or not.
   */
  lemma OnlyTargetsBanned(times: Ledger, update: Update, botId: UserId, admins: seq<UserId>, now: Tick, platform: Platform)
    requires !NoNewMembers(update)
    ensures var r := Decide(History(times, update.chatId), update, botId, admins, now, platform);
            r.banned <= Ids(Targets(Joining(update), botId, admins)) &&
            forall x :: x in r.banned ==> x != botId && x !in admins
  {
    var ids := Ids(Targets(Joining(update), botId, admins));
    BanAllSpec(ids, platform.banRejects);
    TargetIdsNotExempt(Joining(update), botId, admins);
    var r := Decide(History(times, update.chatId), update, botId, admins, now, platform);
    forall x | x in r.banned ensures x in ids {
      var i :| 0 <= i < |r.banned| && r.banned[i] == x;
      assert ids[i] == x;
    }
  }

  /** Outside raid mode nobody is banned, and the join message is deleted unless that call raises. */
  lemma NormalModeBansNobody(times: Ledger, update: Update, botId: UserId, admins: seq<UserId>, now: Tick, platform: Platform)
    requires !NoNewMembers(update)
    requires !Decide(History(times, update.chatId), update, botId, admins, now, platform).raid
    ensures var r := Decide(History(times, update.chatId), update, botId, admins, now, platform);
            r.banned == [] &&
            (r.deleted <==> !platform.deleteRaises) &&
            (r.fault.Some? ==> r.fault == Some(DeleteRaised))
  {
  }

  /**
   * In raid mode, when no ban raises, every target is banned exactly once,
   * in target order, and the join message is then deleted unless that call
   * raises.
   */
  lemma RaidBansEveryTarget(times: Ledger, update: Update, botId: UserId, admins: seq<UserId>, now: Tick, platform: Platform)
    requires !NoNewMembers(update)
    requires Decide(History(times, update.chatId), update, botId, admins, now, platform).raid
    requires forall u :: u in Targets(Joining(update), botId, admins) ==> u.id !in platform.banRejects
    ensures var r := Decide(History(times, update.chatId), update, botId, admins, now, platform);
            r.banned == Ids(Targets(Joining(update), botId, admins)) &&
            (r.deleted <==> !platform.deleteRaises)
  {
    var ts := Targets(Joining(update), botId, admins);
    var ids := Ids(ts);
    BanAllSpec(ids, platform.banRejects);
    forall x | x in ids ensures x !in platform.banRejects {
      var i :| 0 <= i < |ids| && ids[i] == x;
      assert ts[i] in ts;
    }
  }

  /**
   * A ban that raises ends the run: the targets before it are banned, no
   * later one is, the join message is not deleted, and the timestamps
   * already appended stay in the ledger.
   */
  lemma BanFailureAbortsRun(times: Ledger, update: Update, botId: UserId, admins: seq<UserId>, now: Tick, platform: Platform)
    requires !NoNewMembers(update)
    requires Decide(History(times, update.chatId), update, botId, admins, now, platform).fault.Some?
    requires Decide(History(times, update.chatId), update, botId, admins, now, platform).fault.value.BanRaised?
    ensures var r := Decide(History(times, update.chatId), update, botId, admins, now, platform);
            var u := r.fault.value.user;
            r.raid && !r.deleted && u in platform.banRejects &&
            r.banned + [u] <= Ids(Targets(Joining(update), botId, admins))
    ensures History(NextTimes(times, update, botId, admins, now), update.chatId)
            == History(times, update.chatId) + Stamps(now, |Targets(Joining(update), botId, admins)|)
  {
    BanAllSpec(Ids(Targets(Joining(update), botId, admins)), platform.banRejects);
  }

  /**
   * The same from the inputs: in raid mode, when target `j` is the first
   * whose ban raises, exactly the targets before it are banned, the run
   * ends with that ban's fault and the join message is not deleted.
   */
  lemma RejectedTargetFaults(times: Ledger, update: Update, botId: UserId, admins: seq<UserId>, now: Tick,
                             platform: Platform, j: nat)
    requires !NoNewMembers(update)
    requires Decide(History(times, update.chatId), update, botId, admins, now, platform).raid
    requires j < |Targets(Joining(update), botId, admins)|
    requires Targets(Joining(update), botId, admins)[j].id in platform.banRejects
    requires forall i :: 0 <= i < j ==> Targets(Joining(update), botId, admins)[i].id !in platform.banRejects
    ensures var r := Decide(History(times, update.chatId), update, botId, admins, now, platform);
            var ids := Ids(Targets(Joining(update), botId, admins));
            r.fault == Some(BanRaised(ids[j])) && r.banned == ids[..j] && !r.deleted
  {
    var ids := Ids(Targets(Joining(update), botId, admins));
    var rejects := platform.banRejects;
    BanAllSpec(ids, rejects);
    var run := BanAll(ids, rejects);
    assert ids[j] in ids;
    var u := run.failedOn.value;
    var k := |run.banned|;
    assert run.banned == ids[..k];
    assert ids[k] == u by {
      assert (run.banned + [u])[k] == u;
    }
    assert ids[k] == Targets(Joining(update), botId, admins)[k].id;
    assert ids[j] !in ids[..k];
    assert k == j;
  }

  /**
   * An update whose members are all exempt bans nobody and records nothing,
   * yet it is still a raid when the recent history alone reaches the
   * threshold.
   */
  lemma NoTargetsBanNobody(times: Ledger, update: Update, botId: UserId, admins: seq<UserId>, now: Tick, platform: Platform)
    requires !NoNewMembers(update)
    requires forall u :: u in Joining(update) ==> Exempt(u, botId, admins)
    ensures var r := Decide(History(times, update.chatId), update, botId, admins, now, platform);
            r.targets == [] && r.banned == [] && (r.deleted <==> !platform.deleteRaises) &&
            (r.raid <==> WindowCount(History(times, update.chatId), now) >= RaidThreshold)
    ensures History(NextTimes(times, update, botId, admins, now), update.chatId) == History(times, update.chatId)
  {
    TargetsOfAllExempt(Joining(update), botId, admins);
    assert History(times, update.chatId) + Stamps(now, 0) == History(times, update.chatId);
  }

  /**
   * For instance: with `RaidThreshold` joins already recorded at `now`, an
   * update whose only new member is the bot itself is a raid that bans nobody.
   */
  lemma NoTargetsRaidExample(bot: User, chat: ChatId, now: Tick, platform: Platform)
    ensures var update := Update(chat, Some(Message([bot])));
            var r := Decide(Stamps(now, RaidThreshold), update, bot.id, AdminIds, now, platform);
            r.Handled? && r.targets == [] && r.raid && r.banned == []
  {
    StampsAreRecent(now, RaidThreshold);
    assert Stamps(now, RaidThreshold) + Stamps(now, 0) == Stamps(now, RaidThreshold);
  }

  /**
   * The history the next lemma starts from arises from an empty ledger:
   * two users join at 0 s and one at 0.5 s, and neither update is a raid,
   * so those three users are not banned.
   */
  lemma FirstJoinsAreNotRaids()
    ensures
      var p := Platform({}, false);
      var e1 := Update(7, Some(Message([User(1, None, "a"), User(2, None, "b")])));
      var e2 := Update(7, Some(Message([User(3, None, "c")])));
      var l1 := NextTimes(map[], e1, 0, AdminIds, 0);
      var l2 := NextTimes(l1, e2, 0, AdminIds, 500_000);
      var r1 := Decide(History(map[], 7), e1, 0, AdminIds, 0, p);
      var r2 := Decide(History(l1, 7), e2, 0, AdminIds, 500_000, p);
      r1.recentCount == 2 && !r1.raid && r1.banned == [] &&
      r2.recentCount == 3 && !r2.raid && r2.banned == [] &&
      History(l2, 7) == [0, 0, 500_000]
  {
    TargetsOfNonExempt([User(1, None, "a"), User(2, None, "b")], 0, AdminIds);
    TargetsOfNonExempt([User(3, None, "c")], 0, AdminIds);
    assert Stamps(0, 2) == [0, 0];
    assert Stamps(500_000, 1) == [500_000];
    var h1: seq<Tick> := [0, 0];
    assert [] + Stamps(0, 2) == h1;
    assert WindowCount(h1, 500_000) == 2 by {
      assert h1[1..] == [0];
    }
    CountAfterRecording([], 0, 2);
    CountAfterRecording(h1, 500_000, 1);
  }

  /**
   * Four joins within one second in one chat, the last of them from a
   * third update (two users at 0 s, one at 0.5 s, one at 0.9 s): that
   * update makes a raid, and only its own target is banned; the three users
   * let in before, by updates that were not raids (`FirstJoinsAreNotRaids`),
   * stay.
   */
  lemma RaidOnFourthJoin()
    ensures
      var update := Update(7, Some(Message([User(4, None, "d")])));
      var r := Decide([0, 0, 500_000], update, 0, AdminIds, 900_000, Platform({}, false));
      r.recentCount == 4 && r.raid && r.banned == [4] && r.deleted
  {
    var h: seq<Tick> := [0, 0, 500_000];
    TargetsOfNonExempt([User(4, None, "d")], 0, AdminIds);
    assert WindowCount(h, 900_000) == 3 by {
      assert h[1..] == [0, 500_000] && h[1..][1..] == [500_000];
    }
    CountAfterRecording(h, 900_000, 1);
  }

  /**
   * Continuing the same history: a join at 2 s, more than one window after
   * the last one, counts alone and is not a raid.
   */
  lemma CountStartsOverAfterWindow()
    ensures
      var update := Update(7, Some(Message([User(5, None, "e")])));
      var r := Decide([0, 0, 500_000, 900_000], update, 0, AdminIds, 2_000_000, Platform({}, false));
      r.recentCount == 1 && !r.raid && r.banned == [] && r.deleted
  {
    var h: seq<Tick> := [0, 0, 500_000, 900_000];
    TargetsOfNonExempt([User(5, None, "e")], 0, AdminIds);
    assert WindowCount(h, 2_000_000) == 0 by {
      assert h[1..] == [0, 500_000, 900_000] && h[1..][1..] == [500_000, 900_000];
      assert h[1..][1..][1..] == [900_000];
    }
    CountAfterRecording(h, 2_000_000, 1);
  }
}
