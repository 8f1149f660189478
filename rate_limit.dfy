/**
 * The in-memory sliding-window rate limiter (app/core/rate_limit.py, the
 * path taken when no Redis client is configured). Each key owns a queue of
 * the instants of its accepted calls, oldest first.
 */
module RateLimit {
  import opened Wrappers
  import Strings
  import Seqs

  /**
   * The answer to one `check`: the call proceeds, it is refused with HTTP 429
   * and a `Retry-After` value, or (limit <= 0 with an empty queue) the
   * source's `queue[0]` raises IndexError before a 429 can be built.
   */
  datatype Decision = Allowed | Limited(retryAfter: int) | Crashed

  /** Pops from the front every instant at or before `cutoff`. */
  function Evict(q: seq<real>, cutoff: real): (r: seq<real>)
    ensures |r| <= |q|
  {
    if q != [] && q[0] <= cutoff then Evict(q[1..], cutoff) else q
  }

  /** Eviction keeps a suffix of the queue: every instant dropped is at or before the cutoff, the first one kept is after it. */
  lemma {:induction false} EvictProperties(q: seq<real>, cutoff: real)
    ensures var r := Evict(q, cutoff);
      && r == q[|q| - |r|..]
      && (forall i :: 0 <= i < |q| - |r| ==> q[i] <= cutoff)
      && (r != [] ==> r[0] > cutoff)
  {
    if q != [] && q[0] <= cutoff {
      EvictProperties(q[1..], cutoff);
      var r := Evict(q, cutoff);
      assert r == Evict(q[1..], cutoff);
      assert q[1..][|q| - 1 - |r|..] == q[|q| - |r|..];
      forall i | 0 <= i < |q| - |r|
        ensures q[i] <= cutoff
      {
        if i > 0 {
          assert q[i] == q[1..][i - 1];
        }
      }
    }
  }

  /** `int(max(1, x))` for a positive float: never below 1. */
  function RetryAfterSeconds(x: real): (r: int)
    ensures r >= 1
    ensures x >= 1.0 ==> r as real <= x < r as real + 1.0
  {
    if x < 1.0 then 1 else x.Floor
  }

  /** One `check` on one queue: the decision and the queue left behind. */
  function CheckQueue(q: seq<real>, limit: int, window: int, now: real): (r: (Decision, seq<real>))
    ensures r.1 == if r.0.Allowed? then Evict(q, now - window as real) + [now] else Evict(q, now - window as real)
    ensures r.0.Allowed? <==> |Evict(q, now - window as real)| < limit
    ensures r.0.Limited? ==> r.0.retryAfter >= 1
    ensures r.0.Crashed? <==> limit <= 0 && Evict(q, now - window as real) == []
  {
    var live := Evict(q, now - window as real);
    if |live| >= limit then
      if live == [] then (Crashed, live)
      else (Limited(RetryAfterSeconds(window as real - (now - live[0]))), live)
    else (Allowed, live + [now])
  }

  /**
   * A refusal tells the caller to wait until the oldest call still in the
   * window leaves it, in whole seconds and at least one second.
   */
  lemma CheckRetryAfter(q: seq<real>, limit: int, window: int, now: real)
    requires CheckQueue(q, limit, window, now).0.Limited?
    ensures var live := Evict(q, now - window as real);
      && live != [] && limit <= |live|
      && CheckQueue(q, limit, window, now).0.retryAfter == RetryAfterSeconds(window as real - (now - live[0]))
  {
  }

  /** A check never lets a queue grow past the limit it enforces. */
  lemma CheckKeepsBound(q: seq<real>, limit: int, window: int, now: real)
    requires |q| <= limit
    ensures |CheckQueue(q, limit, window, now).1| <= limit
  {
  }

  /** With a limit of zero or less no call is ever accepted. */
  lemma NonPositiveLimitRejects(q: seq<real>, limit: int, window: int, now: real)
    requires limit <= 0
    ensures !CheckQueue(q, limit, window, now).0.Allowed?
  {
  }

  ghost predicate SortedUpTo(q: seq<real>, now: real) {
    (forall i, j :: 0 <= i < j < |q| ==> q[i] <= q[j]) && (forall i :: 0 <= i < |q| ==> q[i] <= now)
  }

  /** With a clock that does not go backwards, queues stay sorted oldest first. */
  lemma CheckKeepsOrder(q: seq<real>, limit: int, window: int, now: real, later: real)
    requires SortedUpTo(q, now) && now <= later
    ensures SortedUpTo(CheckQueue(q, limit, window, now).1, later)
  {
    var live := Evict(q, now - window as real);
    EvictProperties(q, now - window as real);
    SuffixSorted(q, |q| - |live|, now);
    AppendSorted(live, now, later);
  }

  lemma SuffixSorted(q: seq<real>, k: int, now: real)
    requires SortedUpTo(q, now) && 0 <= k <= |q|
    ensures SortedUpTo(q[k..], now)
  {
    assert forall i :: 0 <= i < |q| - k ==> q[k..][i] == q[k + i];
  }

  /** Appending the current instant to a queue sorted up to it keeps it sorted up to any later instant. */
  lemma AppendSorted(live: seq<real>, now: real, later: real)
    requires SortedUpTo(live, now) && now <= later
    ensures SortedUpTo(live, later) && SortedUpTo(live + [now], later)
  {
    assert forall i :: 0 <= i < |live| ==> (live + [now])[i] == live[i];
  }

  /** The decisions of successive checks on one key at the given instants. */
  function RunChecks(q: seq<real>, limit: int, window: int, times: seq<real>): (r: seq<Decision>)
    ensures |r| == |times|
    decreases |times|
  {
    if times == [] then []
    else
      var step := CheckQueue(q, limit, window, times[0]);
      [step.0] + RunChecks(step.1, limit, window, times[1..])
  }

  /**
   * Generalised burst: when every call comes less than a window after the
   * first and the first `d` are recorded, the remaining calls pass until
   * `limit` are recorded, and the next one is refused.
   */
  lemma {:induction false} BurstFrom(all: seq<real>, d: nat, limit: int, window: int)
    requires limit >= 1 && |all| == limit + 1 && d <= limit
    requires forall i :: 0 <= i < |all| ==> all[i] - all[0] < window as real
    ensures var r := RunChecks(all[..d], limit, window, all[d..]);
      (forall i :: 0 <= i < limit - d ==> r[i] == Allowed) && r[limit - d].Limited?
    decreases limit - d
  {
    var done := all[..d];
    var rest := all[d..];
    if d > 0 {
      assert done[0] == all[0] && all[d] - all[0] < window as real;
    }
    assert Evict(done, all[d] - window as real) == done;
    var step := CheckQueue(done, limit, window, all[d]);
    var r := RunChecks(done, limit, window, rest);
    assert rest[0] == all[d] && rest[1..] == all[d + 1..];
    RunChecksCons(done, limit, window, rest);
    if d < limit {
      assert step == (Allowed, done + [all[d]]);
      assert done + [all[d]] == all[..d + 1];
      BurstFrom(all, d + 1, limit, window);
      AllowedBeforeRefusal(r, limit - d);
    } else {
      assert step.0.Limited?;
    }
  }

  lemma RunChecksCons(q: seq<real>, limit: int, window: int, times: seq<real>)
    requires times != []
    ensures var step := CheckQueue(q, limit, window, times[0]);
      RunChecks(q, limit, window, times) == [step.0] + RunChecks(step.1, limit, window, times[1..])
  {
  }

  /** A decision list that starts with an acceptance followed by `n - 1` acceptances and a refusal. */
  lemma AllowedBeforeRefusal(r: seq<Decision>, n: int)
    requires 1 <= n < |r| && r[0] == Allowed
    requires (forall i :: 0 <= i < n - 1 ==> r[1..][i] == Allowed) && r[1..][n - 1].Limited?
    ensures (forall i :: 0 <= i < n ==> r[i] == Allowed) && r[n].Limited?
  {
    assert forall i :: 1 <= i < |r| ==> r[i] == r[1..][i - 1];
  }

  /** `limit` calls in a row within one window all pass and the next one is refused (test_hardening.py:35-46). */
  lemma BurstIsCapped(times: seq<real>, limit: int, window: int)
    requires limit >= 1 && |times| == limit + 1
    requires forall i, j :: 0 <= i < j < |times| ==> times[i] <= times[j]
    requires times[limit] - times[0] < window as real
    ensures forall i :: 0 <= i < limit ==> RunChecks([], limit, window, times)[i] == Allowed
    ensures RunChecks([], limit, window, times)[limit].Limited?
  {
    assert forall i :: 0 <= i < |times| ==> times[i] <= times[limit];
    BurstFrom(times, 0, limit, window);
    assert times[..0] == [] && times[0..] == times;
  }

  /** `_client_ip`: first `x-forwarded-for` element trimmed, else the client host, else "unknown". */
  function ClientIp(forwardedFor: Option<string>, clientHost: Option<string>): (ip: string)
    ensures forwardedFor.Some? && forwardedFor.value != "" ==>
      ip == Strings.Strip(Strings.Split(forwardedFor.value, ',')[0])
    ensures (forwardedFor.None? || forwardedFor.value == "") ==>
      ip == (if clientHost.Some? then clientHost.value else "unknown")
  {
    if forwardedFor.Some? && forwardedFor.value != "" then Strings.Strip(Strings.Split(forwardedFor.value, ',')[0])
    else if clientHost.Some? then clientHost.value
    else "unknown"
  }

  class InMemoryRateLimiter {
    /** `_hits`: a `defaultdict(deque)` from key to accepted instants. */
    var hits: map<string, seq<real>>

    constructor ()
      ensures hits == map[]
    {
      hits := map[];
    }

    /** The queue of `key`, as the `defaultdict` hands it out (empty when new). */
    function QueueOf(key: string): seq<real>
      reads this
    {
      if key in hits then hits[key] else []
    }

    /**
     * `check(key, limit, window_seconds)` at instant `now`: evicts the stale
     * front of the key's queue, then refuses or records the call. Only the
     * queue of `key` changes (and it is created when absent).
     */
    method Check(key: string, limit: int, windowSeconds: int, now: real) returns (d: Decision)
      modifies this
      ensures key in hits
      ensures (d, hits[key]) == CheckQueue(old(QueueOf(key)), limit, windowSeconds, now)
      ensures hits == old(hits)[key := hits[key]]
    {
      var cutoff := now - windowSeconds as real;
      var queue := QueueOf(key);
      ghost var original := queue;
      while queue != [] && queue[0] <= cutoff
        invariant Evict(queue, cutoff) == Evict(original, cutoff)
        invariant hits == old(hits)
        decreases |queue|
      {
        queue := queue[1..];
      }
      assert queue == Evict(original, cutoff);
      ghost var expected := CheckQueue(original, limit, windowSeconds, now);
      if |queue| >= limit {
        hits := hits[key := queue];
        if queue == [] {
          assert expected == (Crashed, queue);
          return Crashed;
        }
        var retryAfter := RetryAfterSeconds(windowSeconds as real - (now - queue[0]));
        assert expected == (Limited(retryAfter), queue);
        return Limited(retryAfter);
      }
      queue := queue + [now];
      hits := hits[key := queue];
      assert expected == (Allowed, queue);
      return Allowed;
    }

    /** The local-key path of `limit_requests(scope, limit_per_minute)`: key "scope:ip", 60 s window. */
    method LimitRequests(scope: string, limitPerMinute: int, forwardedFor: Option<string>,
                         clientHost: Option<string>, now: real) returns (d: Decision)
      modifies this
      ensures var key := scope + ":" + ClientIp(forwardedFor, clientHost);
        key in hits && (d, hits[key]) == CheckQueue(old(QueueOf(key)), limitPerMinute, 60, now)
        && hits == old(hits)[key := hits[key]]
    {
      var ip := ClientIp(forwardedFor, clientHost);
      d := Check(scope + ":" + ip, limitPerMinute, 60, now);
    }
  }
}
