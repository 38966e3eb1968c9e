/**
 * The API server's per-client rate limiter: a sliding one-minute window of
 * request times kept per client address, and the middleware that picks the
 * client address from the proxy headers. Times are clock readings in
 * nanoseconds passed in by the caller; the clock never runs backwards.
 */
module RateLimit {
  import opened Wrappers
  import opened Text

  /** The window length, 60 seconds, in nanoseconds. */
  const WINDOW: nat := 60_000_000_000

  /** HTTP 429 Too Many Requests. */
  const TOO_MANY_REQUESTS: nat := 429

  /** `Instant::duration_since`, which saturates at zero for a later instant. */
  function Elapsed(now: nat, t: nat): (r: nat)
    ensures t <= now ==> r + t == now
    ensures t > now ==> r == 0
  {
    if t <= now then now - t else 0
  }

  /** `retain`: the times still inside the window at `now`, in their order. */
  function Recent(ts: seq<nat>, now: nat): (r: seq<nat>)
    ensures |r| <= |ts|
    ensures forall i :: 0 <= i < |r| ==> Elapsed(now, r[i]) < WINDOW && r[i] in ts
    ensures forall i :: 0 <= i < |ts| && Elapsed(now, ts[i]) < WINDOW ==> ts[i] in r
  {
    if ts == [] then []
    else
      var front := Recent(ts[..|ts| - 1], now);
      assert forall i :: 0 <= i < |ts| - 1 ==> ts[..|ts| - 1][i] == ts[i];
      if Elapsed(now, ts[|ts| - 1]) < WINDOW then front + [ts[|ts| - 1]] else front
  }

  /** Retaining is distributive over appending. */
  lemma {:induction false} RecentAppend(a: seq<nat>, b: seq<nat>, now: nat)
    ensures Recent(a + b, now) == Recent(a, now) + Recent(b, now)
    decreases |b|
  {
    if b != [] {
      var b' := b[..|b| - 1];
      assert (a + b)[..|a + b| - 1] == a + b';
      RecentAppend(a, b', now);
    } else {
      assert a + b == a;
    }
  }

  /** Retaining at a later time after retaining at an earlier one is retaining at the later one. */
  lemma {:induction false} RecentLater(ts: seq<nat>, earlier: nat, later: nat)
    requires earlier <= later
    requires forall i :: 0 <= i < |ts| ==> ts[i] <= earlier
    ensures Recent(Recent(ts, earlier), later) == Recent(ts, later)
  {
    if ts != [] {
      var front := ts[..|ts| - 1];
      var t := ts[|ts| - 1];
      RecentLater(front, earlier, later);
      if Elapsed(earlier, t) < WINDOW {
        RecentAppend(Recent(front, earlier), [t], later);
      }
    }
  }

  /**
   * One request from a client whose stored times are `log`: the expired
   * times are dropped; the request is admitted, and its time recorded,
   * only if fewer than `limit` remain.
   */
  function Step(log: seq<nat>, now: nat, limit: nat): (r: (seq<nat>, bool))
    ensures r.1 <==> |Recent(log, now)| < limit
    ensures r.1 ==> r.0 == Recent(log, now) + [now]
    ensures !r.1 ==> r.0 == Recent(log, now)
  {
    var kept := Recent(log, now);
    if |kept| >= limit then (kept, false) else (kept + [now], true)
  }

  /** The stored times after a client's requests at `times`, in order. */
  function Log(times: seq<nat>, limit: nat): seq<nat>
  {
    if times == [] then [] else Step(Log(times[..|times| - 1], limit), times[|times| - 1], limit).0
  }

  /** The times of the requests that were admitted. */
  function Admitted(times: seq<nat>, limit: nat): (r: seq<nat>)
    ensures forall i :: 0 <= i < |r| ==> r[i] in times
  {
    if times == [] then []
    else
      var front := times[..|times| - 1];
      var t := times[|times| - 1];
      var prev := Admitted(front, limit);
      assert forall x :: x in front ==> x in times;
      if Step(Log(front, limit), t, limit).1 then prev + [t] else prev
  }

  predicate NonDecreasing(times: seq<nat>)
  {
    forall i, j :: 0 <= i <= j < |times| ==> times[i] <= times[j]
  }

  /** The stored times are exactly the admitted requests of the last minute. */
  lemma {:induction false} LogIsRecentAdmitted(times: seq<nat>, limit: nat)
    requires times != [] && NonDecreasing(times)
    ensures Log(times, limit) == Recent(Admitted(times, limit), times[|times| - 1])
  {
    var front := times[..|times| - 1];
    var t := times[|times| - 1];
    var prev := Admitted(front, limit);
    if front == [] {
      assert Log(front, limit) == [] && prev == [];
    } else {
      assert NonDecreasing(front) by {
        forall i, j | 0 <= i <= j < |front| ensures front[i] <= front[j] {
          assert front[i] == times[i] && front[j] == times[j];
        }
      }
      LogIsRecentAdmitted(front, limit);
      var last := front[|front| - 1];
      forall i | 0 <= i < |prev| ensures prev[i] <= last {
        var j :| 0 <= j < |front| && front[j] == prev[i];
        assert times[j] <= times[|front| - 1];
      }
      RecentLater(prev, last, t);
    }
    if Step(Log(front, limit), t, limit).1 {
      RecentAppend(prev, [t], t);
    }
  }

  /** No client's log ever holds more than `limit` times. */
  lemma {:induction false} LogWithinLimit(times: seq<nat>, limit: nat)
    ensures |Log(times, limit)| <= limit
  {
    if times != [] {
      LogWithinLimit(times[..|times| - 1], limit);
    }
  }

  /**
   * The limiter's guarantee: at the moment of any request, the admitted
   * requests of the preceding minute number at most `limit`.
   */
  lemma AdmitsAtMostLimitPerWindow(times: seq<nat>, limit: nat)
    requires times != [] && NonDecreasing(times)
    ensures |Recent(Admitted(times, limit), times[|times| - 1])| <= limit
  {
    LogIsRecentAdmitted(times, limit);
    LogWithinLimit(times, limit);
  }

  /** A limit of zero refuses every request. */
  lemma {:induction false} ZeroLimitAdmitsNothing(times: seq<nat>)
    ensures Admitted(times, 0) == []
  {
    if times != [] {
      ZeroLimitAdmitsNothing(times[..|times| - 1]);
    }
  }

  /** The limiter's shared state: the request times of each client address. */
  class RateLimitState {
    const requestsPerMinute: nat
    var requests: map<string, seq<nat>>

    constructor (requestsPerMinute: nat)
      ensures this.requestsPerMinute == requestsPerMinute && requests == map[]
    {
      this.requestsPerMinute := requestsPerMinute;
      requests := map[];
    }

    /** The times stored for a client, none for a client never seen. */
    function Times(client: string): seq<nat>
      reads this
    {
      if client in requests then requests[client] else []
    }

    /** Every stored log is within the limit. */
    predicate Valid()
      reads this
    {
      forall c :: c in requests ==> |requests[c]| <= requestsPerMinute
    }

    /**
     * `check_rate_limit`: the client's entry is created if absent and
     * pruned to the window; a full window refuses with 429 without
     * recording, otherwise `now` is recorded. Other clients are untouched.
     */
    method CheckRateLimit(client: string, now: nat) returns (r: Result<(), nat>)
      requires Valid()
      modifies this
      ensures Valid()
      ensures requests == old(requests)[client := Step(old(Times(client)), now, requestsPerMinute).0]
      ensures r.Ok? <==> Step(old(Times(client)), now, requestsPerMinute).1
      ensures r.Err? ==> r.error == TOO_MANY_REQUESTS
    {
      var log := if client in requests then requests[client] else [];
      var kept := Recent(log, now);
      if |kept| >= requestsPerMinute {
        requests := requests[client := kept];
        return Err(TOO_MANY_REQUESTS);
      }
      requests := requests[client := kept + [now]];
      r := Ok(());
    }
  }

  // -----------------------------------------------------------------------
  // Client address

  /** A request header's value: `None` when it is not visible ASCII text. */
  type HeaderValue = Option<string>

  /** The request headers, under their lower-case names (first value of each). */
  type Headers = map<string, HeaderValue>

  /**
   * `extract_client_ip`: the first comma-separated element of
   * X-Forwarded-For, trimmed; otherwise X-Real-IP as it is; otherwise none.
   * A header that is not text is skipped.
   */
  function ExtractClientIp(headers: Headers): (r: Option<string>)
    ensures "x-forwarded-for" in headers && headers["x-forwarded-for"].Some? ==>
      r == Some(Trim(Split(headers["x-forwarded-for"].value, ',')[0]))
    ensures r.None? <==>
      (("x-forwarded-for" !in headers || headers["x-forwarded-for"].None?) &&
       ("x-real-ip" !in headers || headers["x-real-ip"].None?))
    ensures ("x-forwarded-for" !in headers || headers["x-forwarded-for"].None?) &&
            "x-real-ip" in headers && headers["x-real-ip"].Some? ==>
      r == headers["x-real-ip"]
    ensures "x-forwarded-for" in headers && headers["x-forwarded-for"].Some? ==> ',' !in r.value
  {
    if "x-forwarded-for" in headers && headers["x-forwarded-for"].Some? then
      Some(Trim(Split(headers["x-forwarded-for"].value, ',')[0]))
    else if "x-real-ip" in headers && headers["x-real-ip"].Some? then
      headers["x-real-ip"]
    else None
  }

  /** The key a request is counted under. */
  function ClientKey(headers: Headers): (r: string)
    ensures ExtractClientIp(headers).None? ==> r == "unknown"
    ensures ExtractClientIp(headers).Some? ==> r == ExtractClientIp(headers).value
  {
    ExtractClientIp(headers).UnwrapOr("unknown")
  }

  lemma {:induction false} SplitWithoutSeparator(s: string, sep: char)
    requires sep !in s
    ensures Split(s, sep) == [s]
  {
    if s != [] {
      assert sep !in s[1..] by {
        forall i | 0 <= i < |s[1..]| ensures s[1..][i] != sep {
          assert s[1..][i] == s[i + 1];
        }
      }
      SplitWithoutSeparator(s[1..], sep);
      assert [s[0]] + s[1..] == s;
    }
  }

  /**
   * The address is whatever the client puts first in X-Forwarded-For, so
   * a client that varies that header is counted under a new key each time.
   */
  lemma ForwardedHeaderChoosesKey(headers: Headers, address: string)
    requires "x-forwarded-for" in headers && headers["x-forwarded-for"] == Some(address)
    requires ',' !in address && address != []
    requires !IsWhitespace(address[0]) && !IsWhitespace(address[|address| - 1])
    ensures ClientKey(headers) == address
  {
    SplitWithoutSeparator(address, ',');
    assert TrimStart(address) == address;
  }

  /** The middleware: a refused request never reaches the handler. */
  method RateLimitMiddleware<R>(state: RateLimitState, headers: Headers, now: nat, next: R)
    returns (r: Result<R, nat>)
    requires state.Valid()
    modifies state
    ensures state.Valid()
    ensures state.requests ==
      old(state.requests)[ClientKey(headers) := Step(old(state.Times(ClientKey(headers))), now, state.requestsPerMinute).0]
    ensures r.Ok? <==> Step(old(state.Times(ClientKey(headers))), now, state.requestsPerMinute).1
    ensures r.Ok? ==> r.value == next
    ensures r.Err? ==> r.error == TOO_MANY_REQUESTS
  {
    var checked := state.CheckRateLimit(ClientKey(headers), now);
    if checked.Err? {
      return Err(checked.error);
    }
    r := Ok(next);
  }
}
