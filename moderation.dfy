/**
 * The raid-mode ban loop (import_logging.py:90-95). Bans are issued one
 * target at a time, in target order; the whole handler body sits in one
 * `try`, so the first ban call that raises ends the loop and no later target
 * is banned.
 */
module Moderation {
  import opened Wrappers
  import opened Settings

  /** What the ban loop achieved: the users banned, and the user whose ban raised, if any. */
  datatype BanRun = BanRun(banned: seq<UserId>, failedOn: Option<UserId>)

  /**
   * Banning `ids` in order against a platform that rejects (raises for) the
   * bans of the users in `rejects`.
   */
  function BanAll(ids: seq<UserId>, rejects: set<UserId>): BanRun
  {
    if ids == [] then BanRun([], None)
    else if ids[0] in rejects then BanRun([], Some(ids[0]))
    else
      var rest := BanAll(ids[1..], rejects);
      BanRun([ids[0]] + rest.banned, rest.failedOn)
  }

  /**
   * The run bans a prefix of `ids`, none of whose users is rejected; it
   * covers all of `ids` exactly when no ban raises, and otherwise stops at
   * the first rejected user.
   */
  lemma {:induction false} BanAllSpec(ids: seq<UserId>, rejects: set<UserId>)
    ensures BanAll(ids, rejects).banned <= ids
    ensures forall x :: x in BanAll(ids, rejects).banned ==> x !in rejects
    ensures BanAll(ids, rejects).failedOn.None? ==> BanAll(ids, rejects).banned == ids
    ensures BanAll(ids, rejects).failedOn.None? ==> forall x :: x in ids ==> x !in rejects
    ensures BanAll(ids, rejects).failedOn.Some? ==>
              var u := BanAll(ids, rejects).failedOn.value;
              u in rejects && u in ids && BanAll(ids, rejects).banned + [u] <= ids
  {
    if ids != [] && ids[0] !in rejects {
      BanAllSpec(ids[1..], rejects);
      var rest := BanAll(ids[1..], rejects);
      assert ids == [ids[0]] + ids[1..];
      if rest.failedOn.Some? {
        assert [ids[0]] + rest.banned + [rest.failedOn.value] == [ids[0]] + (rest.banned + [rest.failedOn.value]);
      }
    }
  }

  /** The ban loop: one ban call per target, stopping at the first that raises. */
  method BanEach(ids: seq<UserId>, rejects: set<UserId>) returns (banned: seq<UserId>, failedOn: Option<UserId>)
    ensures BanRun(banned, failedOn) == BanAll(ids, rejects)
  {
    banned, failedOn := [], None;
    var i := 0;
    while i < |ids| && failedOn.None?
      invariant 0 <= i <= |ids|
      invariant banned == ids[..i]
      invariant failedOn.None? ==> BanAll(ids, rejects) == BanRun(banned + BanAll(ids[i..], rejects).banned, BanAll(ids[i..], rejects).failedOn)
      invariant failedOn.Some? ==> BanAll(ids, rejects) == BanRun(banned, failedOn)
      decreases |ids| - i, if failedOn.None? then 1 else 0
    {
      assert ids[i..][1..] == ids[i + 1..];
      if ids[i] in rejects {
        failedOn := Some(ids[i]);
      } else {
        banned := banned + [ids[i]];
        i := i + 1;
      }
    }
  }
}
