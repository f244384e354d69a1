/**
 * The fixed-window request counter kept per user id (`userRequests`).
 * A window opens at a user's first request, or at the first request more than
 * `WindowMillis` after the window opened; within a window at most
 * `MaxPerWindow` requests are allowed, and refused ones are not counted.
 */
module RateLimit {

  const WindowMillis: int := 10000
  const MaxPerWindow: int := 50

  datatype Window = Window(count: int, windowStart: int)

  type Table = map<string, Window>

  datatype Decision = Decision(allowed: bool, table: Table)

  /** A window has expired when strictly more than `WindowMillis` passed since it opened. */
  predicate Expired(w: Window, now: int) {
    now - w.windowStart > WindowMillis
  }

  /** `checkRateLimit(userId)` at time `now`: the verdict and the updated table. */
  function Check(t: Table, id: string, now: int): (d: Decision)
    ensures d.allowed <==> id !in t || Expired(t[id], now) || t[id].count < MaxPerWindow
    ensures !d.allowed ==> d.table == t
    ensures d.table.Keys == t.Keys + {id}
    ensures forall k :: k in t && k != id ==> d.table[k] == t[k]
    ensures d.allowed && (id !in t || Expired(t[id], now)) ==> d.table[id] == Window(1, now)
    ensures d.allowed && id in t && !Expired(t[id], now) ==>
              d.table[id] == Window(t[id].count + 1, t[id].windowStart)
  {
    if id !in t then
      Decision(true, t[id := Window(1, now)])
    else
      var stats := t[id];
      if Expired(stats, now) then
        Decision(true, t[id := Window(1, now)])
      else if stats.count >= MaxPerWindow then
        Decision(false, t)
      else
        Decision(true, t[id := stats.(count := stats.count + 1)])
  }

  /** Every window has counted at least one and at most `MaxPerWindow` requests. */
  ghost predicate Bounded(t: Table) {
    forall k :: k in t ==> 1 <= t[k].count <= MaxPerWindow
  }

  lemma CheckKeepsBounded(t: Table, id: string, now: int)
    requires Bounded(t)
    ensures Bounded(Check(t, id, now).table)
  {
  }

  /** How many of the requests of `id` arriving at `times`, in order, are allowed. */
  function AllowedCount(t: Table, id: string, times: seq<int>): (n: nat)
    decreases |times|
  {
    if times == [] then 0
    else
      var d := Check(t, id, times[0]);
      (if d.allowed then 1 else 0) + AllowedCount(d.table, id, times[1..])
  }

  function Min(a: int, b: int): (m: int) { if a <= b then a else b }

  /**
   * Within an open window that has counted `c` requests, a burst of requests
   * none of which reaches the window's end gets exactly `MaxPerWindow - c`
   * of them through (or all, if fewer).
   */
  lemma {:induction false} BurstInOpenWindow(t: Table, id: string, times: seq<int>)
    requires id in t && 1 <= t[id].count <= MaxPerWindow
    requires forall i :: 0 <= i < |times| ==> !Expired(t[id], times[i])
    ensures AllowedCount(t, id, times) == Min(|times|, MaxPerWindow - t[id].count)
    decreases |times|
  {
    if times != [] {
      var d := Check(t, id, times[0]);
      assert d.table[id].windowStart == t[id].windowStart;
      forall i | 0 <= i < |times[1..]|
        ensures !Expired(d.table[id], times[1..][i])
      {
        assert times[1..][i] == times[i + 1];
      }
      BurstInOpenWindow(d.table, id, times[1..]);
    }
  }

  /**
   * A user with no window yet who sends a burst of requests within
   * `WindowMillis` of the first gets exactly `MaxPerWindow` of them through
   * (or all, if fewer).
   */
  lemma {:induction false} FreshBurst(t: Table, id: string, times: seq<int>)
    requires id !in t && times != []
    requires forall i :: 0 <= i < |times| ==> times[i] - times[0] <= WindowMillis
    ensures AllowedCount(t, id, times) == Min(|times|, MaxPerWindow)
  {
    var d := Check(t, id, times[0]);
    assert d.table[id] == Window(1, times[0]);
    forall i | 0 <= i < |times[1..]|
      ensures !Expired(d.table[id], times[1..][i])
    {
      assert times[1..][i] == times[i + 1];
    }
    BurstInOpenWindow(d.table, id, times[1..]);
  }
}
