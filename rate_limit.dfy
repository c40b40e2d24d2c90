/** `RateLimiter` (bots/base_bot.py): despite its docstring it is not a token
    bucket but a sliding-window log, a dict from user id to the timestamps
    of that user's admitted requests. Each check drops the timestamps that
    have left the window, refuses when `maxRequests` remain, and otherwise
    records `now`. The clock read inside `is_allowed` is the parameter `now`;
    timestamps are integers. */
module RateLimit {

  /** `[t for t in ts if now - t < window]`: the timestamps still inside the
      window, in their original order. */
  function InWindow(ts: seq<int>, now: int, window: int): (r: seq<int>)
    ensures |r| <= |ts|
    ensures forall t :: t in r <==> t in ts && now - t < window
    ensures forall t :: multiset(r)[t] == (if now - t < window then multiset(ts)[t] else 0)
  {
    if ts == [] then []
    else
      assert ts == [ts[0]] + ts[1..];
      (if now - ts[0] < window then [ts[0]] else []) + InWindow(ts[1..], now, window)
  }

  /** The log of `user`, empty when the user has not been seen. */
  function Entry(requests: map<string, seq<int>>, user: string): seq<int> {
    if user in requests then requests[user] else []
  }

  /** The answer of one check and the log that follows it. */
  datatype Verdict = Verdict(allowed: bool, requests: map<string, seq<int>>)

  /** One call of `is_allowed(user)` at time `now`: the user's log is always
      rewritten to its in-window part, and `now` is appended when allowed. */
  function Check(requests: map<string, seq<int>>, maxRequests: int, window: int,
                 user: string, now: int): Verdict
  {
    var kept := InWindow(Entry(requests, user), now, window);
    if |kept| >= maxRequests then Verdict(false, requests[user := kept])
    else Verdict(true, requests[user := kept + [now]])
  }

  /** The bound the source's logic keeps on every log: at most `maxRequests`
      entries (none at all when `maxRequests` is not positive). */
  predicate Bounded(requests: map<string, seq<int>>, maxRequests: int) {
    forall u :: u in requests ==> |requests[u]| <= (if maxRequests < 0 then 0 else maxRequests)
  }

  /** A check refuses exactly when `maxRequests` requests of the user are
      still inside the window; a refusal appends nothing and an admission
      appends `now` as the last entry. */
  lemma CheckVerdict(requests: map<string, seq<int>>, maxRequests: int, window: int,
                     user: string, now: int)
    ensures var v := Check(requests, maxRequests, window, user, now);
            var kept := InWindow(Entry(requests, user), now, window);
            && user in v.requests
            && (v.allowed <==> |kept| < maxRequests)
            && (!v.allowed ==> v.requests[user] == kept)
            && (v.allowed ==> v.requests[user] == kept + [now])
  {
  }

  /** Only the checked user's log changes. */
  lemma CheckFrame(requests: map<string, seq<int>>, maxRequests: int, window: int,
                   user: string, now: int, other: string)
    requires other != user
    ensures var v := Check(requests, maxRequests, window, user, now);
            && (other in v.requests <==> other in requests)
            && (other in requests ==> v.requests[other] == requests[other])
  {
  }

  /** After a check every timestamp kept for the user is inside the window,
      provided the window is positive so that the fresh `now` qualifies. */
  lemma CheckWindow(requests: map<string, seq<int>>, maxRequests: int, window: int,
                    user: string, now: int)
    requires window > 0
    ensures var v := Check(requests, maxRequests, window, user, now);
            forall t :: t in v.requests[user] ==> now - t < window
  {
  }

  /** No check lets a log grow beyond `maxRequests`. */
  lemma CheckBounded(requests: map<string, seq<int>>, maxRequests: int, window: int,
                     user: string, now: int)
    requires Bounded(requests, maxRequests)
    ensures Bounded(Check(requests, maxRequests, window, user, now).requests, maxRequests)
  {
    var kept := InWindow(Entry(requests, user), now, window);
    assert |kept| <= |Entry(requests, user)|;
  }

  /** Filtering again at a later time keeps only what the later filter alone
      keeps: a timestamp that has left the window does not return. */
  lemma {:induction false} InWindowLater(ts: seq<int>, earlier: int, now: int, window: int)
    requires earlier <= now
    ensures InWindow(InWindow(ts, earlier, window), now, window) == InWindow(ts, now, window)
    decreases |ts|
  {
    if ts != [] {
      InWindowLater(ts[1..], earlier, now, window);
      var head := if now - ts[0] < window then [ts[0]] else [];
      if earlier - ts[0] < window {
        assert InWindow(ts, earlier, window) == [ts[0]] + InWindow(ts[1..], earlier, window);
        assert InWindow(InWindow(ts, earlier, window), now, window)
            == head + InWindow(InWindow(ts[1..], earlier, window), now, window);
      } else {
        assert InWindow(ts, earlier, window) == InWindow(ts[1..], earlier, window);
      }
    }
  }

  /** Filtering a log with one more entry at its end. */
  lemma {:induction false} InWindowAppend(ts: seq<int>, x: int, now: int, window: int)
    ensures InWindow(ts + [x], now, window)
         == InWindow(ts, now, window) + (if now - x < window then [x] else [])
    decreases |ts|
  {
    if ts == [] {
      assert [] + [x] == [x];
    } else {
      assert (ts + [x])[1..] == ts[1..] + [x];
      InWindowAppend(ts[1..], x, now, window);
    }
  }

  predicate NonDecreasing(nows: seq<int>) {
    forall i, j :: 0 <= i < j < |nows| ==> nows[i] <= nows[j]
  }

  /** The limiter state after `user` has made requests at the times `nows`, in
      order, and the times among them that were admitted. */
  datatype Replayed = Replayed(requests: map<string, seq<int>>, admitted: seq<int>)

  function Replay(requests: map<string, seq<int>>, maxRequests: int, window: int,
                  user: string, nows: seq<int>): Replayed
    decreases |nows|
  {
    if nows == [] then Replayed(requests, [])
    else
      var r := Replay(requests, maxRequests, window, user, nows[..|nows| - 1]);
      var now := nows[|nows| - 1];
      var v := Check(r.requests, maxRequests, window, user, now);
      Replayed(v.requests, if v.allowed then r.admitted + [now] else r.admitted)
  }

  /** The sliding-window guarantee. For a user with no log, whose requests
      arrive at non-decreasing times, the log always holds exactly the
      admitted requests still inside the window, and so at no moment have
      more than `maxRequests` requests been admitted within the last
      `window` seconds. */
  lemma {:induction false} AdmissionsPerWindow(requests: map<string, seq<int>>, maxRequests: int,
                                               window: int, user: string, nows: seq<int>)
    requires window > 0 && nows != [] && NonDecreasing(nows)
    requires Entry(requests, user) == []
    ensures var r := Replay(requests, maxRequests, window, user, nows);
            var now := nows[|nows| - 1];
            && Entry(r.requests, user) == InWindow(r.admitted, now, window)
            && |InWindow(r.admitted, now, window)| <= (if maxRequests < 0 then 0 else maxRequests)
    decreases |nows|
  {
    var prefix := nows[..|nows| - 1];
    var r := Replay(requests, maxRequests, window, user, prefix);
    var now := nows[|nows| - 1];
    var bound := if maxRequests < 0 then 0 else maxRequests;
    if prefix == [] {
      assert r == Replayed(requests, []);
    } else {
      assert NonDecreasing(prefix) by {
        forall i, j | 0 <= i < j < |prefix| ensures prefix[i] <= prefix[j] {
          assert prefix[i] == nows[i] && prefix[j] == nows[j];
        }
      }
      AdmissionsPerWindow(requests, maxRequests, window, user, prefix);
      var earlier := prefix[|prefix| - 1];
      assert earlier == nows[|nows| - 2];
      InWindowLater(r.admitted, earlier, now, window);
    }
    // Now the log before this request, filtered at `now`, is the admitted
    // requests inside the window, and it is within the bound.
    var kept := InWindow(Entry(r.requests, user), now, window);
    assert kept == InWindow(r.admitted, now, window);
    assert |kept| <= bound;
    InWindowAppend(r.admitted, now, now, window);
  }

  class RateLimiter {
    const maxRequests: int
    const windowSeconds: int
    var requests: map<string, seq<int>>

    ghost predicate Valid()
      reads this
    {
      Bounded(requests, maxRequests)
    }

    constructor (maxRequests: int, windowSeconds: int)
      ensures Valid()
      ensures this.maxRequests == maxRequests && this.windowSeconds == windowSeconds
      ensures requests == map[]
    {
      this.maxRequests := maxRequests;
      this.windowSeconds := windowSeconds;
      requests := map[];
    }

    /** `is_allowed(user_id)` with the clock reading `now`. */
    method IsAllowed(user: string, now: int) returns (allowed: bool)
      requires Valid()
      modifies this
      ensures Valid()
      ensures Verdict(allowed, requests) == Check(old(requests), maxRequests, windowSeconds, user, now)
    {
      CheckBounded(requests, maxRequests, windowSeconds, user, now);
      if user !in requests {
        requests := requests[user := []];
      }
      requests := requests[user := InWindow(requests[user], now, windowSeconds)];
      if |requests[user]| >= maxRequests {
        return false;
      }
      requests := requests[user := requests[user] + [now]];
      allowed := true;
    }
  }
}
