/** The quiz endpoint's in-memory, per-client fixed-window rate limiter:
    client identification from the request, and the table of usage entries
    keyed by client address. Clock readings are parameters. */
module RateLimit {
  import opened Js

  /** 15 minutes, in milliseconds. */
  const WindowMs: int := 15 * 60 * 1000
  /** Requests admitted per window. */
  const MaxRequests: int := 10

  /** One client's entry: requests counted since `start` (a clock reading in ms). */
  datatype Usage = Usage(count: nat, start: int)

  /** The verdict and the values of the X-RateLimit-Remaining and
      Retry-After headers. */
  datatype Decision = Decision(allowed: bool, remaining: int, retryAfter: Option<int>)

  /** `s.split(',')[0]`: everything before the first comma. */
  function FirstSegment(s: string): (r: string)
    ensures r <= s && ',' !in r
    ensures r == s || s[|r|] == ','
  {
    if s == [] || s[0] == ',' then [] else [s[0]] + FirstSegment(s[1..])
  }

  /** FirstSegment reads up to the first comma and ignores all that follows it. */
  lemma {:induction false} FirstSegmentOf(hop: string, rest: string)
    requires ',' !in hop
    requires rest == [] || rest[0] == ','
    ensures FirstSegment(hop + rest) == hop
  {
    if hop != [] {
      assert (hop + rest)[1..] == hop[1..] + rest;
      FirstSegmentOf(hop[1..], rest);
    } else {
      assert hop + rest == rest;
    }
  }

  /** `getClientIp`: the first hop of a non-empty X-Forwarded-For string,
      trimmed; otherwise the socket's remote address, and 'unknown' when
      that is missing or empty. */
  function ClientIp(forwardedFor: Option<string>, remoteAddress: Option<string>): (ip: string)
    ensures forwardedFor.Some? && forwardedFor.value != "" ==>
      ',' !in ip && |ip| <= |forwardedFor.value| &&
      (ip == [] || (!IsWhitespace(ip[0]) && !IsWhitespace(ip[|ip| - 1])))
    ensures (forwardedFor.None? || forwardedFor.value == "") ==>
      ip == OrString(remoteAddress, "unknown") && ip != ""
  {
    if forwardedFor.Some? && forwardedFor.value != "" then
      var hop := FirstSegment(forwardedFor.value);
      var ip := Trim(hop);
      assert ',' !in ip && (ip == [] || (!IsWhitespace(ip[0]) && !IsWhitespace(ip[|ip| - 1]))) by {
        var k := TrimSpec(hop);
        assert forall c :: c in ip ==> c in hop;
      }
      ip
    else OrString(remoteAddress, "unknown")
  }

  /** A header "a, b, c" identifies the client as "a" (trimmed), whatever
      the later hops say. */
  lemma ClientIpIsFirstHop(hop: string, rest: string, remoteAddress: Option<string>)
    requires ',' !in hop
    requires rest == [] || rest[0] == ','
    requires hop + rest != ""
    ensures ClientIp(Some(hop + rest), remoteAddress) == Trim(hop)
  {
    FirstSegmentOf(hop, rest);
  }

  /** `Math.ceil(a / b)` for a positive divisor. */
  function CeilDiv(a: int, b: int): (r: int)
    requires b > 0
    ensures (r - 1) * b < a <= r * b
  {
    -((-a) / b)
  }

  /** The entry after one call at time `now`: an unseen client starts a
      window at `now`, an expired window restarts at `now`, then the count
      goes up by one. */
  function Touch(prev: Option<Usage>, now: int): (u: Usage)
    ensures u.count >= 1
    ensures (prev.None? || now - prev.value.start >= WindowMs) ==> u == Usage(1, now)
    ensures prev.Some? && now - prev.value.start < WindowMs ==>
      u == Usage(prev.value.count + 1, prev.value.start)
  {
    var base := if prev.Some? then prev.value else Usage(0, now);
    var current := if now - base.start >= WindowMs then Usage(0, now) else base;
    current.(count := current.count + 1)
  }

  /** The verdict on an entry that has already been touched. */
  function Decide(u: Usage, now: int): (d: Decision)
    ensures d.allowed <==> u.count <= MaxRequests
    ensures d.retryAfter.None? <==> d.allowed
    ensures 0 <= d.remaining <= MaxRequests
    ensures d.remaining == if u.count >= MaxRequests then 0 else MaxRequests - u.count
    ensures d.retryAfter.Some? ==>
      (d.retryAfter.value - 1) * 1000 < u.start + WindowMs - now <= d.retryAfter.value * 1000
  {
    var remaining := if MaxRequests - u.count > 0 then MaxRequests - u.count else 0;
    if u.count > MaxRequests then
      Decision(false, remaining, Some(CeilDiv(u.start + WindowMs - now, 1000)))
    else Decision(true, remaining, None)
  }

  /** A rejection always names a retry delay of at least one second: only
      an unexpired window can be over the limit. When the clock has not
      gone back, the delay is at most the window length. */
  lemma RejectionRetryAfter(prev: Option<Usage>, now: int)
    requires !Decide(Touch(prev, now), now).allowed
    ensures Decide(Touch(prev, now), now).retryAfter.value >= 1
    ensures now >= Touch(prev, now).start ==>
      Decide(Touch(prev, now), now).retryAfter.value <= WindowMs / 1000
  {
    var u := Touch(prev, now);
    assert prev.Some? && now - prev.value.start < WindowMs;
    assert u.start + WindowMs - now > 0;
  }

  /** The first request after a window has expired is admitted and opens a
      new window counting just itself. */
  lemma ExpiredWindowAdmits(prev: Usage, now: int)
    requires now - prev.start >= WindowMs
    ensures Touch(Some(prev), now) == Usage(1, now)
    ensures Decide(Touch(Some(prev), now), now) == Decision(true, MaxRequests - 1, None)
  {
  }

  /** The entry after a series of calls from one client at the given times. */
  function Replay(prev: Option<Usage>, times: seq<int>): (r: Option<Usage>)
    ensures times != [] ==> r.Some?
    decreases |times|
  {
    if times == [] then prev else Replay(Some(Touch(prev, times[0])), times[1..])
  }

  /** Calls that all fall within the window opened at `start` only add to
      the count. */
  lemma {:induction false} ReplayWithinWindow(count: nat, start: int, times: seq<int>)
    requires forall i :: 0 <= i < |times| ==> times[i] - start < WindowMs
    ensures Replay(Some(Usage(count, start)), times) == Some(Usage(count + |times|, start))
    decreases |times|
  {
    if times != [] {
      assert forall i :: 0 <= i < |times[1..]| ==> times[1..][i] == times[i + 1];
      ReplayWithinWindow(count + 1, start, times[1..]);
    }
  }

  /** A burst of n requests from a new client inside one window: every call
      counts, and the n-th one is rejected exactly when n > 10, so the 11th
      is the first to be turned away. */
  lemma BurstFromNewClient(times: seq<int>)
    requires |times| > 0
    requires forall i :: 0 <= i < |times| ==> times[i] - times[0] < WindowMs
    ensures Replay(None, times) == Some(Usage(|times|, times[0]))
    ensures !Decide(Replay(None, times).value, times[|times| - 1]).allowed <==> |times| > MaxRequests
  {
    assert Replay(None, times) == Replay(Some(Usage(1, times[0])), times[1..]);
    assert forall i :: 0 <= i < |times[1..]| ==> times[1..][i] == times[i + 1];
    ReplayWithinWindow(1, times[0], times[1..]);
  }

  /** The process-wide `ipToUsage` table. */
  class RateLimiter {
    var usage: map<string, Usage>

    constructor ()
      ensures usage == map[]
    {
      usage := map[];
    }

    /** `checkRateLimit` for the client `ip` at clock reading `now`. */
    method Check(ip: string, now: int) returns (d: Decision)
      modifies this
      ensures usage == old(usage)[ip := Touch(if ip in old(usage) then Some(old(usage)[ip]) else None, now)]
      ensures forall other :: other != ip ==>
        (other in usage <==> other in old(usage)) &&
        (other in usage ==> usage[other] == old(usage)[other])
      ensures d == Decide(usage[ip], now)
    {
      var u := if ip in usage then usage[ip] else Usage(0, now);
      if now - u.start >= WindowMs {
        u := Usage(0, now);
      }
      u := u.(count := u.count + 1);
      usage := usage[ip := u];
      var remaining := if MaxRequests - u.count > 0 then MaxRequests - u.count else 0;
      if u.count > MaxRequests {
        d := Decision(false, remaining, Some(CeilDiv(u.start + WindowMs - now, 1000)));
      } else {
        d := Decision(true, remaining, None);
      }
    }
  }
}
