/**
 * The per-user sliding-window rate limiter (`SimpleRateLimiter`): a map from
 * user to the timestamps of their admitted messages, purged on each check and
 * by a periodic sweep. Timestamps are the millisecond clock readings the
 * caller passes in as `now`.
 */
module RateLimit {

  /** The bot admits at most `MaxRequests` messages per user per `WindowMs`. */
  const MaxRequests := 10
  const WindowMs := 60000
  /** The periodic sweep drops timestamps older than five minutes. */
  const SweepAgeMs := 300000

  /** The timestamps of `ts` that lie inside the window ending at `now`, in their order. */
  function Recent(ts: seq<int>, now: int, windowMs: int): (r: seq<int>)
    ensures |r| <= |ts|
    ensures forall t :: t in r <==> t in ts && now - t < windowMs
  {
    if ts == [] then []
    else if now - ts[0] < windowMs then [ts[0]] + Recent(ts[1..], now, windowMs)
    else Recent(ts[1..], now, windowMs)
  }

  /** `r` is `s` with some elements left out, the others kept in order. */
  ghost predicate Subsequence(r: seq<int>, s: seq<int>)
    decreases |s|
  {
    r == [] || (s != [] && ((r[0] == s[0] && Subsequence(r[1..], s[1..])) || Subsequence(r, s[1..])))
  }

  /** Purging keeps the surviving timestamps in their original order. */
  lemma {:induction false} RecentIsSubsequence(ts: seq<int>, now: int, windowMs: int)
    ensures Subsequence(Recent(ts, now, windowMs), ts)
  {
    if ts != [] {
      RecentIsSubsequence(ts[1..], now, windowMs);
      var r := Recent(ts, now, windowMs);
      if now - ts[0] < windowMs {
        assert r[0] == ts[0] && r[1..] == Recent(ts[1..], now, windowMs);
      }
    }
  }

  /** Purging a concatenation purges each part. */
  lemma {:induction false} RecentOfConcat(a: seq<int>, b: seq<int>, now: int, windowMs: int)
    ensures Recent(a + b, now, windowMs) == Recent(a, now, windowMs) + Recent(b, now, windowMs)
  {
    if a != [] {
      assert (a + b)[1..] == a[1..] + b;
      RecentOfConcat(a[1..], b, now, windowMs);
    } else {
      assert a + b == b;
    }
  }

  /** A list entirely inside the window is kept whole. */
  lemma {:induction false} RecentKeepsAllInWindow(ts: seq<int>, now: int, windowMs: int)
    requires forall t :: t in ts ==> now - t < windowMs
    ensures Recent(ts, now, windowMs) == ts
  {
    if ts != [] {
      assert forall t :: t in ts[1..] ==> t in ts;
      RecentKeepsAllInWindow(ts[1..], now, windowMs);
      assert ts[0] in ts;
      assert [ts[0]] + ts[1..] == ts;
    }
  }

  /** A list entirely outside the window is purged completely. */
  lemma {:induction false} RecentDropsAllStale(ts: seq<int>, now: int, windowMs: int)
    requires forall t :: t in ts ==> now - t >= windowMs
    ensures Recent(ts, now, windowMs) == []
  {
    if ts != [] {
      assert ts[0] in ts;
      assert forall t :: t in ts[1..] ==> t in ts;
      RecentDropsAllStale(ts[1..], now, windowMs);
    }
  }

  /** Entries older than the window never count: prepending them changes nothing. */
  lemma StaleEntriesNeverCount(stale: seq<int>, ts: seq<int>, now: int, windowMs: int)
    requires forall t :: t in stale ==> now - t >= windowMs
    ensures Recent(stale + ts, now, windowMs) == Recent(ts, now, windowMs)
  {
    RecentOfConcat(stale, ts, now, windowMs);
    RecentDropsAllStale(stale, now, windowMs);
  }

  /** The list stored for `user`, or the empty list the limiter creates for a new user. */
  function Stored(requests: map<string, seq<int>>, user: string): seq<int> {
    if user in requests then requests[user] else []
  }

  /** Whether `isAllowed(user, maxRequests, windowMs)` admits a message at `now`. */
  function Admits(requests: map<string, seq<int>>, user: string, now: int,
                  maxRequests: int, windowMs: int): bool
  {
    |Recent(Stored(requests, user), now, windowMs)| < maxRequests
  }

  /**
   * Once `maxRequests` messages lie inside the window, the next one is
   * refused.
   */
  lemma FullWindowRefuses(requests: map<string, seq<int>>, user: string, now: int,
                          maxRequests: int, windowMs: int)
    requires forall t :: t in Stored(requests, user) ==> now - t < windowMs
    requires |Stored(requests, user)| >= maxRequests
    ensures !Admits(requests, user, now, maxRequests, windowMs)
  {
    RecentKeepsAllInWindow(Stored(requests, user), now, windowMs);
  }

  /** Once the whole window has elapsed since the last admitted message, the next is admitted. */
  lemma ElapsedWindowAdmits(requests: map<string, seq<int>>, user: string, now: int,
                            maxRequests: int, windowMs: int)
    requires forall t :: t in Stored(requests, user) ==> now - t >= windowMs
    requires maxRequests > 0
    ensures Admits(requests, user, now, maxRequests, windowMs)
  {
    StaleEntriesNeverCount(Stored(requests, user), [], now, windowMs);
    assert Stored(requests, user) + [] == Stored(requests, user);
  }

  /** What the sweep leaves: each list purged, and users whose list became empty removed. */
  function Swept(requests: map<string, seq<int>>, now: int): (m: map<string, seq<int>>)
    ensures m.Keys <= requests.Keys
    ensures forall u :: u in m ==> m[u] != [] && forall t :: t in m[u] ==> t > now - SweepAgeMs
    ensures forall u :: u in requests && (exists t :: t in requests[u] && t > now - SweepAgeMs) ==> u in m
    ensures forall u :: u in m ==>
      Subsequence(m[u], requests[u]) && forall t :: t in requests[u] && t > now - SweepAgeMs ==> t in m[u]
    ensures forall u :: u in requests ==> Stored(m, u) == Recent(requests[u], now, SweepAgeMs)
  {
    AllRecentAreSubsequences(requests, now, SweepAgeMs);
    map u | u in requests && Recent(requests[u], now, SweepAgeMs) != [] :: Recent(requests[u], now, SweepAgeMs)
  }

  /** Purging every user's list keeps each list's survivors in order. */
  lemma AllRecentAreSubsequences(requests: map<string, seq<int>>, now: int, windowMs: int)
    ensures forall u :: u in requests ==> Subsequence(Recent(requests[u], now, windowMs), requests[u])
  {
    forall u | u in requests
      ensures Subsequence(Recent(requests[u], now, windowMs), requests[u])
    {
      RecentIsSubsequence(requests[u], now, windowMs);
    }
  }

  class RateLimiter {
    /** `this.requests`: user to admitted-message timestamps. */
    var requests: map<string, seq<int>>

    constructor ()
      ensures requests == map[]
    {
      requests := map[];
    }

    /**
     * `isAllowed`: purge the user's timestamps outside the window; refuse,
     * storing nothing new, when `maxRequests` remain; otherwise store the
     * purged list with `now` appended and admit.
     */
    method IsAllowed(user: string, now: int, maxRequests: int, windowMs: int) returns (allowed: bool)
      modifies this
      ensures allowed == Admits(old(requests), user, now, maxRequests, windowMs)
      ensures allowed ==>
        requests == old(requests)[user := Recent(Stored(old(requests), user), now, windowMs) + [now]]
      ensures !allowed ==> requests == old(requests)[user := Stored(old(requests), user)]
      ensures allowed ==> |requests[user]| <= maxRequests
      ensures allowed && windowMs > 0 ==> forall t :: t in requests[user] ==> now - t < windowMs
    {
      if user !in requests {
        requests := requests[user := []];
      }
      var valid := Recent(requests[user], now, windowMs);
      if |valid| >= maxRequests {
        return false;
      }
      requests := requests[user := valid + [now]];
      return true;
    }

    /**
     * The body of the five-minute sweep: for every user, keep the timestamps
     * newer than `now - 300000` and delete the user when none remain.
     */
    method Sweep(now: int)
      modifies this
      ensures requests == Swept(old(requests), now)
    {
      var pending := requests.Keys;
      ghost var original := requests;
      while pending != {}
        invariant pending <= original.Keys
        invariant forall u :: u in pending ==> u in requests && requests[u] == original[u]
        invariant forall u :: u in requests ==> u in original
        invariant forall u :: u in original && u !in pending ==>
          (u in requests <==> Recent(original[u], now, SweepAgeMs) != [])
          && (u in requests ==> requests[u] == Recent(original[u], now, SweepAgeMs))
        decreases pending
      {
        var u :| u in pending;
        // `time > cutoff` with `cutoff = now - 300000` is `now - time < 300000`.
        var valid := Recent(requests[u], now, SweepAgeMs);
        if valid == [] {
          requests := requests - {u};
        } else {
          requests := requests[u := valid];
        }
        pending := pending - {u};
      }
    }
  }
}
