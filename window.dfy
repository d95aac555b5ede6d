/**
 * The sliding-window count (import_logging.py:83-86): the recent entries are
 * a filtered copy of a chat's history, keeping every timestamp strictly later
 * than `now - Window`. There is no upper bound: an entry later than `now`
 * (the wall clock moved back) is counted too.
 */
module Window {
  import opened Settings

  /** An entry is recent when it is strictly later than the window's start. */
  predicate IsRecent(t: Tick, now: Tick)
  {
    t > now - Window
  }

  /** The filtered copy `recent_entries`, in history order. */
  function Recent(entries: seq<Tick>, now: Tick): (r: seq<Tick>)
    ensures |r| <= |entries|
    ensures forall t :: t in r <==> t in entries && IsRecent(t, now)
  {
    if entries == [] then []
    else
      (if IsRecent(entries[0], now) then [entries[0]] else [])
      + Recent(entries[1..], now)
  }

  /** `len(recent_entries)`. */
  function WindowCount(entries: seq<Tick>, now: Tick): nat
  {
    |Recent(entries, now)|
  }

  /** The positions of the history that hold a recent entry. */
  function RecentPositions(entries: seq<Tick>, now: Tick): set<nat>
  {
    set i: nat | i < |entries| && IsRecent(entries[i], now)
  }

  /** `k` copies of the timestamp `t`: what one event with `k` targets appends. */
  function Stamps(t: Tick, k: nat): seq<Tick>
  {
    seq(k, _ => t)
  }

  /** Filtering distributes over concatenation. */
  lemma {:induction false} RecentAppend(a: seq<Tick>, b: seq<Tick>, now: Tick)
    ensures Recent(a + b, now) == Recent(a, now) + Recent(b, now)
  {
    if a == [] {
      assert a + b == b;
    } else {
      assert (a + b)[0] == a[0] && (a + b)[1..] == a[1..] + b;
      RecentAppend(a[1..], b, now);
    }
  }

  /**
   * The window count is the number of stored entries `t` with
   * `t > now - Window`, each position counted once.
   */
  lemma {:induction false} WindowCountIsPositionCount(entries: seq<Tick>, now: Tick)
    ensures WindowCount(entries, now) == |RecentPositions(entries, now)|
    decreases |entries|
  {
    if entries == [] {
      assert RecentPositions(entries, now) == {};
    } else {
      var n := |entries| - 1;
      var front, last := entries[..n], entries[n];
      assert entries == front + [last];
      RecentAppend(front, [last], now);
      assert Recent([last], now) == (if IsRecent(last, now) then [last] else []) by {
        assert [last][1..] == [];
      }
      WindowCountIsPositionCount(front, now);
      var before := RecentPositions(front, now);
      assert n !in before;
      assert RecentPositions(entries, now) == before + (if IsRecent(last, now) then {n} else {});
    }
  }

  /** Entries stamped `now` are always recent, because the window is not empty. */
  lemma {:induction false} StampsAreRecent(now: Tick, k: nat)
    ensures Recent(Stamps(now, k), now) == Stamps(now, k)
    decreases k
  {
    if k > 0 {
      assert Stamps(now, k)[1..] == Stamps(now, k - 1);
      StampsAreRecent(now, k - 1);
    }
  }

  /** Recording `k` joins at `now` raises the count at `now` by exactly `k`. */
  lemma CountAfterRecording(history: seq<Tick>, now: Tick, k: nat)
    ensures WindowCount(history + Stamps(now, k), now) == WindowCount(history, now) + k
  {
    RecentAppend(history, Stamps(now, k), now);
    StampsAreRecent(now, k);
  }

  /**
   * The bound is strict: an entry exactly one window old is not counted,
   * one a tick younger is.
   */
  lemma WindowBoundIsStrict(history: seq<Tick>, now: Tick)
    ensures WindowCount(history + [now - Window], now) == WindowCount(history, now)
    ensures WindowCount(history + [now - Window + 1], now) == WindowCount(history, now) + 1
  {
    RecentAppend(history, [now - Window], now);
    RecentAppend(history, [now - Window + 1], now);
    assert [now - Window][1..] == [] && [now - Window + 1][1..] == [];
  }
}
