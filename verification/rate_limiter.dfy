/** The rate limiter of the metrics endpoint: one slot per host and second. */
module RateLimiter {
  import opened Common

  type HostId = int
  type Time = int      // nanoseconds

  const Interval: int := 1_000_000_000

  datatype Call = Call(host: HostId, now: Time)

  type Slots = map<HostId, Time>

  predicate Allowed(last: Slots, c: Call) {
    c.host in last ==> c.now - last[c.host] >= Interval
  }

  function After(last: Slots, c: Call): Slots {
    if Allowed(last, c) then last[c.host := c.now] else last
  }

  class VmMetricsRateLimiter {
    var last: Slots

    constructor ()
      ensures last == map[]
    {
      last := map[];
    }

    method Allow(host: HostId, now: Time) returns (ok: bool)
      modifies this
      ensures ok == old(Allowed(last, Call(host, now))) && last == old(After(last, Call(host, now)))
    {
      if host in last {
        var t := last[host];
        if now - t < Interval {
          return false;
        }
      }
      last := last[host := now];
      return true;
    }
  }

  /** The times at which calls of one host are accepted, in call order. */
  function Accepted(last: Slots, calls: seq<Call>, host: HostId): seq<Time>
    decreases |calls|
  {
    if calls == [] then []
    else (if calls[0].host == host && Allowed(last, calls[0]) then [calls[0].now] else [])
         + Accepted(After(last, calls[0]), calls[1..], host)
  }

  function OfHost(calls: seq<Call>, host: HostId): seq<Call> {
    if calls == [] then []
    else (if calls[0].host == host then [calls[0]] else []) + OfHost(calls[1..], host)
  }

  predicate Spaced(times: seq<Time>) {
    forall i :: 0 <= i < |times| - 1 ==> times[i + 1] - times[i] >= Interval
  }

  /** Accepted times of a host are at least a second apart and increase, whatever times the calls carry. */
  lemma {:induction false} AcceptedAreSpaced(last: Slots, calls: seq<Call>, host: HostId)
    ensures Spaced(Accepted(last, calls, host))
    ensures host in last && Accepted(last, calls, host) != [] ==> Accepted(last, calls, host)[0] - last[host] >= Interval
    decreases |calls|
  {
    if calls != [] {
      AcceptedAreSpaced(After(last, calls[0]), calls[1..], host);
    }
  }

  lemma {:induction false} SpacedApart(times: seq<Time>, i: nat, k: nat)
    requires Spaced(times) && i <= k < |times|
    ensures times[k] - times[i] >= (k - i) * Interval
    decreases k
  {
    if i < k {
      SpacedApart(times, i, k - 1);
    }
  }

  /** The accepted times that fall into a window of length `length`, both ends included. */
  function InWindow(times: seq<Time>, from: Time, length: nat): seq<Time> {
    if times == [] then []
    else (if from <= times[0] <= from + length then [times[0]] else []) + InWindow(times[1..], from, length)
  }

  lemma {:induction false} InWindowIsInside(times: seq<Time>, from: Time, length: nat)
    ensures forall x :: x in InWindow(times, from, length) ==> from <= x <= from + length && x in times
  {
    if times != [] {
      InWindowIsInside(times[1..], from, length);
    }
  }

  lemma LaterIsSpaced(times: seq<Time>, x: Time)
    requires times != [] && Spaced(times) && x in times[1..]
    ensures x - times[0] >= Interval
  {
    var k :| 0 <= k < |times[1..]| && times[1..][k] == x;
    SpacedApart(times, 0, k + 1);
  }

  lemma {:induction false} WindowOfSpaced(times: seq<Time>, from: Time, length: nat)
    requires Spaced(times)
    ensures Spaced(InWindow(times, from, length))
  {
    if times != [] {
      var rest := InWindow(times[1..], from, length);
      WindowOfSpaced(times[1..], from, length);
      if rest != [] {
        InWindowIsInside(times[1..], from, length);
        assert rest[0] in rest;
        LaterIsSpaced(times, rest[0]);
      }
      SpacedPrepend(times[0], rest);
    }
  }

  lemma SpacedPrepend(t: Time, times: seq<Time>)
    requires Spaced(times) && (times != [] ==> times[0] - t >= Interval)
    ensures Spaced([t] + times)
  {
  }

  /** Any window of `length` holds at most floor(length / 1s) + 1 acceptances of a host. */
  lemma RateIsBounded(last: Slots, calls: seq<Call>, host: HostId, from: Time, length: nat)
    ensures |InWindow(Accepted(last, calls, host), from, length)| <= length / Interval + 1
  {
    var times := Accepted(last, calls, host);
    var inside := InWindow(times, from, length);
    AcceptedAreSpaced(last, calls, host);
    WindowOfSpaced(times, from, length);
    InWindowIsInside(times, from, length);
    if |inside| > 0 {
      SpacedApart(inside, 0, |inside| - 1);
      assert inside[0] in inside && Last(inside) in inside;
      assert (|inside| - 1) * Interval <= length;
    }
  }

  /** The bound is reached: calls a second apart are all accepted. */
  lemma {:induction false} SteadyCallsAreAccepted(last: Slots, host: HostId, start: Time, n: nat)
    requires host in last ==> start - last[host] >= Interval
    ensures Accepted(last, seq(n, i => Call(host, start + i * Interval)), host) == seq(n, i => start + i * Interval)
    decreases n
  {
    if n > 0 {
      var calls := seq(n, i => Call(host, start + i * Interval));
      var rest := seq(n - 1, i => Call(host, start + Interval + i * Interval));
      assert calls[0] == Call(host, start) && calls[1..] == rest;
      SteadyCallsAreAccepted(After(last, calls[0]), host, start + Interval, n - 1);
      assert seq(n, i => start + i * Interval) == [start] + seq(n - 1, i => start + Interval + i * Interval);
    }
  }

  /** Hosts do not influence each other: only a host's own calls matter for what it is granted. */
  lemma {:induction false} HostsAreIndependent(last: Slots, other: Slots, calls: seq<Call>, host: HostId)
    requires (host in last <==> host in other) && (host in last ==> last[host] == other[host])
    ensures Accepted(last, calls, host) == Accepted(other, OfHost(calls, host), host)
    decreases |calls|
  {
    if calls != [] {
      var c := calls[0];
      if c.host == host {
        HostsAreIndependent(After(last, c), After(other, c), calls[1..], host);
        assert OfHost(calls, host)[1..] == OfHost(calls[1..], host);
      } else {
        HostsAreIndependent(After(last, c), other, calls[1..], host);
        assert OfHost(calls, host) == OfHost(calls[1..], host);
        assert Accepted(last, calls, host) == Accepted(After(last, c), calls[1..], host);
      }
    }
  }
}
