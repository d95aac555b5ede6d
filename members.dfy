/**
 * The join event as the handler sees it, and the reduction of the joining
 * members to "targets" (import_logging.py:55-56, 73-76).
 */
module Members {
  import opened Wrappers
  import opened Settings

  /** A joining user; only `id` takes part in any decision, the names are only printed. */
  datatype User = User(id: UserId, username: Option<string>, fullName: string)

  /** The service message announcing the joins. */
  datatype Message = Message(newChatMembers: seq<User>)

  /** One update delivered to the handler; `message` is absent for updates without one. */
  datatype Update = Update(chatId: ChatId, message: Option<Message>)

  /** The handler returns at once when there is no message or no new member. */
  predicate NoNewMembers(u: Update)
  {
    u.message.None? || u.message.value.newChatMembers == []
  }

  /** The bot itself and the configured admins are never targets. */
  predicate Exempt(u: User, botId: UserId, admins: seq<UserId>)
  {
    u.id == botId || u.id in admins
  }

  /** The members that are neither the bot nor an admin, in arrival order. */
  function Targets(members: seq<User>, botId: UserId, admins: seq<UserId>): (r: seq<User>)
    ensures |r| <= |members|
    ensures forall u :: u in r <==> u in members && !Exempt(u, botId, admins)
  {
    if members == [] then []
    else
      (if Exempt(members[0], botId, admins) then [] else [members[0]])
      + Targets(members[1..], botId, admins)
  }

  /** The identifiers of a list of users, position by position. */
  function Ids(us: seq<User>): seq<UserId>
  {
    seq(|us|, i requires 0 <= i < |us| => us[i].id)
  }

  /**
   * Filtering distributes over concatenation: each member is kept or
   * dropped on its own, and the kept ones stay in their original order.
   */
  lemma {:induction false} TargetsAppend(a: seq<User>, b: seq<User>, botId: UserId, admins: seq<UserId>)
    ensures Targets(a + b, botId, admins) == Targets(a, botId, admins) + Targets(b, botId, admins)
  {
    if a == [] {
      assert a + b == b;
    } else {
      assert (a + b)[0] == a[0] && (a + b)[1..] == a[1..] + b;
      TargetsAppend(a[1..], b, botId, admins);
    }
  }

  /** When nobody in the event is exempt, every member is a target, in the same order. */
  lemma {:induction false} TargetsOfNonExempt(members: seq<User>, botId: UserId, admins: seq<UserId>)
    requires forall u :: u in members ==> !Exempt(u, botId, admins)
    ensures Targets(members, botId, admins) == members
  {
    if members != [] {
      TargetsOfNonExempt(members[1..], botId, admins);
    }
  }

  /** When everybody in the event is exempt, there are no targets. */
  lemma {:induction false} TargetsOfAllExempt(members: seq<User>, botId: UserId, admins: seq<UserId>)
    requires forall u :: u in members ==> Exempt(u, botId, admins)
    ensures Targets(members, botId, admins) == []
  {
    if members != [] {
      TargetsOfAllExempt(members[1..], botId, admins);
    }
  }

  /** The identifiers of the targets are never the bot's nor an admin's. */
  lemma TargetIdsNotExempt(members: seq<User>, botId: UserId, admins: seq<UserId>)
    ensures forall x :: x in Ids(Targets(members, botId, admins)) ==> x != botId && x !in admins
  {
    var ts := Targets(members, botId, admins);
    forall x | x in Ids(ts) ensures x != botId && x !in admins {
      var i :| 0 <= i < |ts| && Ids(ts)[i] == x;
      assert ts[i] in ts;
    }
  }
}
