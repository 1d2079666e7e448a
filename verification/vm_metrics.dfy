/** Metrics that agents post for their VMs: static validation, the ownership check with its cache, and the batch. */
module VmMetrics {
  import opened Common
  import RateLimiter

  type HostId = int
  type Time = int      // nanoseconds

  const Second: int := 1_000_000_000
  const MaxSkew := 5 * 60 * Second
  const MaxPoints := 1000

  /** A reading as it was posted; a real number where it is one. */
  datatype Cpu = NotANumber | Infinite | Finite(value: real)

  /** A point on the wire; `ts` is what parsing the time stamp gives. */
  datatype WirePoint = WirePoint(vmId: string, kind: string, ts: Option<Time>, cpu: Option<Cpu>, mem: int)

  datatype Kind = Machine | Browser

  datatype Point = Point(vmId: string, kind: Kind, ts: Time, cpu: Option<real>, mem: int)

  datatype Reason = BadKind | NoVmId | BadTime | NegativeMemory | CpuNotFinite | NegativeCpu

  datatype PostError = BadPoint(index: nat, reason: Reason) | LookupFailed(index: nat)

  /** What survives of a batch, and how many points were dropped. */
  datatype Sifted<T> = Sifted(points: seq<T>, dropped: nat)

  function KindText(k: Kind): string {
    if k.Machine? then "machine" else "browser"
  }

  // ---- Static validation ----

  predicate Skewed(ts: Time, now: Time) {
    var truncated := ts - ts % Second;
    truncated - now < -MaxSkew || truncated - now > MaxSkew
  }

  /** Why a point fails the whole batch, if it does. A skewed point fails only for what is checked before its time. */
  function Malformed(w: WirePoint, now: Time): Option<Reason> {
    if w.kind != "machine" && w.kind != "browser" then Some(BadKind)
    else if w.vmId == "" then Some(NoVmId)
    else if w.ts.None? then Some(BadTime)
    else if Skewed(w.ts.value, now) then None
    else if w.mem < 0 then Some(NegativeMemory)
    else if w.cpu.Some? && !w.cpu.value.Finite? then Some(CpuNotFinite)
    else if w.cpu.Some? && w.cpu.value.value < 0.0 then Some(NegativeCpu)
    else None
  }

  predicate Fresh(w: WirePoint, now: Time) {
    w.ts.Some? && !Skewed(w.ts.value, now)
  }

  function Parsed(w: WirePoint, now: Time): Point
    requires Malformed(w, now).None? && Fresh(w, now)
  {
    Point(w.vmId, if w.kind == "machine" then Machine else Browser, w.ts.value - w.ts.value % Second,
          if w.cpu.Some? then Some(w.cpu.value.value) else None, w.mem)
  }

  /** The index of the first malformed point, or the length. */
  function FirstMalformed(wire: seq<WirePoint>, now: Time): (i: nat)
    ensures i <= |wire| && (i < |wire| ==> Malformed(wire[i], now).Some?)
    ensures forall k :: 0 <= k < i ==> Malformed(wire[k], now).None?
  {
    if wire == [] then 0
    else if Malformed(wire[0], now).Some? then 0
    else 1 + FirstMalformed(wire[1..], now)
  }

  function FreshPoints(wire: seq<WirePoint>, now: Time): (r: seq<Point>)
    requires forall k :: 0 <= k < |wire| ==> Malformed(wire[k], now).None?
    ensures |r| <= |wire|
    decreases |wire|
  {
    if wire == [] then []
    else FreshPoints(wire[..|wire| - 1], now) + if Fresh(Last(wire), now) then [Parsed(Last(wire), now)] else []
  }

  predicate AllWellFormed(wire: seq<WirePoint>, now: Time) {
    forall k :: 0 <= k < |wire| ==> Malformed(wire[k], now).None?
  }

  lemma OneMoreWellFormed(wire: seq<WirePoint>, now: Time, i: nat)
    requires i < |wire| && AllWellFormed(wire[..i], now) && Malformed(wire[i], now).None?
    ensures AllWellFormed(wire[..i + 1], now)
    ensures FreshPoints(wire[..i + 1], now) == FreshPoints(wire[..i], now) + if Fresh(wire[i], now) then [Parsed(wire[i], now)] else []
  {
    forall k | 0 <= k < i
      ensures Malformed(wire[k], now).None?
    {
      assert wire[..i][k] == wire[k];
    }
    assert wire[..i + 1][..i] == wire[..i] && Last(wire[..i + 1]) == wire[i];
  }

  lemma MalformedFirstAt(wire: seq<WirePoint>, now: Time, i: nat)
    requires i < |wire| && AllWellFormed(wire[..i], now) && Malformed(wire[i], now).Some?
    ensures FirstMalformed(wire, now) == i
  {
    forall k | 0 <= k < i
      ensures Malformed(wire[k], now).None?
    {
      assert wire[..i][k] == wire[k];
    }
  }

  /** The checks on one point, in their order; nothing for a point that is dropped. */
  method ValidatePoint(w: WirePoint, now: Time) returns (r: Result<Option<Point>, Reason>)
    ensures r == match Malformed(w, now)
                 case Some(reason) => Err(reason)
                 case None => Ok(if Fresh(w, now) then Some(Parsed(w, now)) else None)
  {
    if w.kind != "machine" && w.kind != "browser" {
      return Err(BadKind);
    }
    if w.vmId == "" {
      return Err(NoVmId);
    }
    if w.ts.None? {
      return Err(BadTime);
    }
    var ts := w.ts.value - w.ts.value % Second;
    var skew := ts - now;
    if skew < -MaxSkew || skew > MaxSkew {
      return Ok(None);
    }
    if w.mem < 0 {
      return Err(NegativeMemory);
    }
    var cpu: Option<real> := None;
    if w.cpu.Some? {
      if !w.cpu.value.Finite? {
        return Err(CpuNotFinite);
      }
      if w.cpu.value.value < 0.0 {
        return Err(NegativeCpu);
      }
      cpu := Some(w.cpu.value.value);
    }
    return Ok(Some(Point(w.vmId, if w.kind == "machine" then Machine else Browser, ts, cpu, w.mem)));
  }

  /** The first malformed point fails the batch; otherwise the fresh points stay, in order, and the rest is counted. */
  method ParseAndStaticValidate(wire: seq<WirePoint>, now: Time) returns (r: Result<Sifted<Point>, PostError>)
    ensures var i := FirstMalformed(wire, now);
            if i < |wire| then r == Err(BadPoint(i, Malformed(wire[i], now).value))
            else r == Ok(Sifted(FreshPoints(wire, now), |wire| - |FreshPoints(wire, now)|))
  {
    var out: seq<Point> := [];
    var dropped := 0;
    for i := 0 to |wire|
      invariant AllWellFormed(wire[..i], now) && out == FreshPoints(wire[..i], now) && dropped == i - |out|
    {
      var checked := ValidatePoint(wire[i], now);
      if checked.Err? {
        MalformedFirstAt(wire, now, i);
        return Err(BadPoint(i, checked.error));
      }
      OneMoreWellFormed(wire, now, i);
      if checked.value.None? {
        dropped := dropped + 1;
        continue;
      }
      out := out + [checked.value.value];
    }
    assert wire[..|wire|] == wire;
    return Ok(Sifted(out, dropped));
  }

  /** A point that passed: its own reading, cut to the second, within five minutes of now, nothing negative in it. */
  predicate Keeps(p: Point, w: WirePoint, now: Time) {
    && p.vmId == w.vmId != "" && KindText(p.kind) == w.kind
    && w.ts.Some? && p.ts % Second == 0 && 0 <= w.ts.value - p.ts < Second && -MaxSkew <= p.ts - now <= MaxSkew
    && p.mem == w.mem >= 0 && (p.cpu.Some? <==> w.cpu.Some?)
    && (p.cpu.Some? ==> w.cpu == Some(Finite(p.cpu.value)) && p.cpu.value >= 0.0)
  }

  /** The positions of the points whose time is not skewed. */
  function FreshAt(wire: seq<WirePoint>, now: Time): (at: seq<nat>)
    ensures forall i, k :: 0 <= i < k < |at| ==> at[i] < at[k]
    ensures forall i :: 0 <= i < |at| ==> at[i] < |wire| && Fresh(wire[at[i]], now)
    ensures forall k: nat :: k < |wire| && Fresh(wire[k], now) ==> k in at
    decreases |wire|
  {
    if wire == [] then []
    else FreshAt(wire[..|wire| - 1], now) + if Fresh(Last(wire), now) then [|wire| - 1] else []
  }

  lemma {:induction false} FreshPointsAreParsed(wire: seq<WirePoint>, now: Time)
    requires AllWellFormed(wire, now)
    ensures |FreshPoints(wire, now)| == |FreshAt(wire, now)|
    ensures forall i :: 0 <= i < |FreshAt(wire, now)| ==> FreshPoints(wire, now)[i] == Parsed(wire[FreshAt(wire, now)[i]], now)
    decreases |wire|
  {
    if wire != [] {
      var init := wire[..|wire| - 1];
      FreshPointsAreParsed(init, now);
      forall i | 0 <= i < |FreshAt(init, now)|
        ensures FreshPoints(wire, now)[i] == Parsed(wire[FreshAt(wire, now)[i]], now)
      {
        assert wire[FreshAt(init, now)[i]] == init[FreshAt(init, now)[i]];
      }
    }
  }

  /** What static validation lets through of a batch: exactly the points whose time is not skewed, in their order, each
      with the reading it was posted with. */
  lemma FreshPointsAreFaithful(wire: seq<WirePoint>, now: Time)
    requires AllWellFormed(wire, now)
    ensures |FreshPoints(wire, now)| == |FreshAt(wire, now)|
    ensures forall i :: 0 <= i < |FreshAt(wire, now)| ==> Keeps(FreshPoints(wire, now)[i], wire[FreshAt(wire, now)[i]], now)
  {
    FreshPointsAreParsed(wire, now);
    forall i | 0 <= i < |FreshAt(wire, now)|
      ensures Keeps(FreshPoints(wire, now)[i], wire[FreshAt(wire, now)[i]], now)
    {
      ParsedKeeps(wire[FreshAt(wire, now)[i]], now);
    }
  }

  lemma ParsedKeeps(w: WirePoint, now: Time)
    requires Malformed(w, now).None? && Fresh(w, now)
    ensures Keeps(Parsed(w, now), w, now)
  {
  }

  lemma CutToTheSecond(ts: Time, cut: Time)
    requires cut % 1_000_000_000 == 0 && 0 <= ts - cut < 1_000_000_000
    ensures cut == ts - ts % Second
  {
  }

  /** A point is let through exactly when it can be kept at all; and it is left out without failing the batch exactly when
      it names a VM and its time, cut to the second, is more than five minutes off. */
  lemma PointIsKeptIff(w: WirePoint, now: Time)
    ensures (Malformed(w, now).None? && Fresh(w, now)) <==> exists p: Point :: Keeps(p, w, now)
    ensures (Malformed(w, now).None? && !Fresh(w, now)) <==>
              && w.kind in {"machine", "browser"} && w.vmId != "" && w.ts.Some?
              && !(-300_000_000_000 <= w.ts.value - w.ts.value % 1_000_000_000 - now <= 300_000_000_000)
  {
    if Malformed(w, now).None? && Fresh(w, now) {
      ParsedKeeps(w, now);
    }
    if p: Point :| Keeps(p, w, now) {
      CutToTheSecond(w.ts.value, p.ts);
    }
  }

  // ---- Ownership ----

  /** A row of the machines or browser VMs table, or that the query failed or found nothing. */
  datatype Row = QueryFailed | NoRow | Row(host: Option<HostId>, account: int, vcpus: nat)

  datatype Tables = Tables(machines: string -> Row, browsers: string -> Row)

  datatype Ownership = Elsewhere | Here(account: int, vcpus: nat)

  function RowOf(t: Tables, vmId: string, kind: Kind): Row {
    if kind.Machine? then t.machines(vmId) else t.browsers(vmId)
  }

  function LookupVMOwnership(t: Tables, vmId: string, kind: Kind, host: HostId): Option<Ownership> {
    match RowOf(t, vmId, kind)
    case QueryFailed => None
    case NoRow => Some(Elsewhere)
    case Row(h, account, vcpus) => Some(if h == Some(host) then Here(account, vcpus) else Elsewhere)
  }

  datatype Metric = Metric(account: int, host: HostId, point: Point)

  predicate WithinCpuLimit(p: Point, vcpus: nat) {
    p.cpu.Some? ==> p.cpu.value <= (200 * vcpus) as real
  }

  /** What becomes of one point when its owner is looked up directly: nothing when it is dropped. */
  function Metrics(o: Ownership, host: HostId, p: Point): (r: seq<Metric>)
    ensures |r| <= 1
  {
    if o.Here? && WithinCpuLimit(p, o.vcpus) then [Metric(o.account, host, p)] else []
  }

  predicate Found(t: Tables, host: HostId, p: Point) {
    LookupVMOwnership(t, p.vmId, p.kind, host).Some?
  }

  /** The index of the first point whose look-up fails, or the length. */
  function FirstFailure(t: Tables, host: HostId, pts: seq<Point>): (i: nat)
    ensures i <= |pts| && (i < |pts| ==> !Found(t, host, pts[i]))
    ensures forall k :: 0 <= k < i ==> Found(t, host, pts[k])
  {
    if pts == [] then 0
    else if !Found(t, host, pts[0]) then 0
    else 1 + FirstFailure(t, host, pts[1..])
  }

  /** Every point looked up on its own, in order. */
  function Direct(t: Tables, host: HostId, pts: seq<Point>): (r: seq<Metric>)
    requires forall k :: 0 <= k < |pts| ==> Found(t, host, pts[k])
    ensures |r| <= |pts|
    decreases |pts|
  {
    if pts == [] then []
    else
      var p := Last(pts);
      assert Found(t, host, pts[|pts| - 1]);
      Direct(t, host, pts[..|pts| - 1]) + Metrics(LookupVMOwnership(t, p.vmId, p.kind, host).value, host, p)
  }

  function CacheKey(kind: Kind, vmId: string): string {
    KindText(kind) + ":" + vmId
  }

  /** The cache key tells the two kinds and all ids apart. */
  lemma CacheKeyIsInjective(k: Kind, a: string, m: Kind, b: string)
    requires CacheKey(k, a) == CacheKey(m, b)
    ensures k == m && a == b
  {
    assert |KindText(k)| == 7 && |KindText(m)| == 7;
    assert CacheKey(k, a)[0] == KindText(k)[0] && CacheKey(m, b)[0] == KindText(m)[0];
    assert CacheKey(k, a)[8..] == a && CacheKey(m, b)[8..] == b;
  }

  /** What is cached is what a look-up gives. */
  ghost predicate Coherent(cache: map<string, Ownership>, t: Tables, host: HostId) {
    forall kind, vmId :: CacheKey(kind, vmId) in cache ==>
      LookupVMOwnership(t, vmId, kind, host) == Some(cache[CacheKey(kind, vmId)])
  }

  lemma CachingStaysCoherent(cache: map<string, Ownership>, t: Tables, host: HostId, p: Point, o: Ownership)
    requires Coherent(cache, t, host) && LookupVMOwnership(t, p.vmId, p.kind, host) == Some(o)
    ensures Coherent(cache[CacheKey(p.kind, p.vmId) := o], t, host)
  {
    forall kind, vmId | CacheKey(kind, vmId) == CacheKey(p.kind, p.vmId)
      ensures kind == p.kind && vmId == p.vmId
    {
      CacheKeyIsInjective(kind, vmId, p.kind, p.vmId);
    }
  }

  ghost function KeysOf(pts: seq<Point>): set<string> {
    set i | 0 <= i < |pts| :: CacheKey(pts[i].kind, pts[i].vmId)
  }

  lemma KeysSnoc(pts: seq<Point>, i: nat)
    requires i < |pts|
    ensures KeysOf(pts[..i + 1]) == KeysOf(pts[..i]) + {CacheKey(pts[i].kind, pts[i].vmId)}
  {
    var more := pts[..i + 1];
    assert forall k :: 0 <= k < i ==> pts[..i][k] == more[k];
    assert more[i] == pts[i];
  }

  /** The owner of a point, from the cache or from one query that is then cached. */
  method Owner(cache: map<string, Ownership>, t: Tables, host: HostId, p: Point)
    returns (o: Option<Ownership>, after: map<string, Ownership>, queried: nat)
    requires Coherent(cache, t, host)
    ensures o == LookupVMOwnership(t, p.vmId, p.kind, host)
    ensures o.Some? ==> Coherent(after, t, host) && after.Keys == cache.Keys + {CacheKey(p.kind, p.vmId)}
    ensures o.Some? ==> queried == |after| - |cache|
  {
    var key := CacheKey(p.kind, p.vmId);
    if key in cache {
      return Some(cache[key]), cache, 0;
    }
    o := LookupVMOwnership(t, p.vmId, p.kind, host);
    after, queried := cache, 1;
    if o.Some? {
      CachingStaysCoherent(cache, t, host, p, o.value);
      after := cache[key := o.value];
      assert after.Keys == cache.Keys + {key};
      assert |after.Keys| == |cache.Keys| + 1;
    }
  }

  method FinalCheck(o: Ownership, host: HostId, p: Point) returns (kept: seq<Metric>)
    ensures kept == Metrics(o, host, p)
  {
    if o.Elsewhere? {
      return [];
    }
    if p.cpu.Some? {
      var limit := (100 * o.vcpus * 2) as real;
      if p.cpu.value > limit {
        return [];
      }
    }
    return [Metric(o.account, host, p)];
  }

  predicate AllFound(t: Tables, host: HostId, pts: seq<Point>) {
    forall k :: 0 <= k < |pts| ==> Found(t, host, pts[k])
  }

  lemma OneMoreFound(t: Tables, host: HostId, pts: seq<Point>, i: nat, o: Ownership)
    requires i < |pts| && AllFound(t, host, pts[..i])
    requires LookupVMOwnership(t, pts[i].vmId, pts[i].kind, host) == Some(o)
    ensures AllFound(t, host, pts[..i + 1])
    ensures Direct(t, host, pts[..i + 1]) == Direct(t, host, pts[..i]) + Metrics(o, host, pts[i])
  {
    forall k | 0 <= k < i
      ensures Found(t, host, pts[k])
    {
      assert pts[..i][k] == pts[k];
    }
    assert pts[..i + 1][..i] == pts[..i] && Last(pts[..i + 1]) == pts[i];
  }

  /** What the batch comes to when every point is looked up on its own: the first failed look-up fails it. */
  function Resolved(t: Tables, host: HostId, pts: seq<Point>): Result<Sifted<Metric>, PostError> {
    var i := FirstFailure(t, host, pts);
    if i < |pts| then Err(LookupFailed(i)) else Ok(Sifted(Direct(t, host, pts), |pts| - |Direct(t, host, pts)|))
  }

  lemma FailsFirstAt(t: Tables, host: HostId, pts: seq<Point>, i: nat)
    requires i < |pts| && AllFound(t, host, pts[..i]) && !Found(t, host, pts[i])
    ensures Resolved(t, host, pts) == Err(LookupFailed(i))
  {
    forall k | 0 <= k < i
      ensures Found(t, host, pts[k])
    {
      assert pts[..i][k] == pts[k];
    }
  }

  lemma NoFailure(t: Tables, host: HostId, pts: seq<Point>)
    requires AllFound(t, host, pts)
    ensures Resolved(t, host, pts) == Ok(Sifted(Direct(t, host, pts), |pts| - |Direct(t, host, pts)|))
  {
  }

  /** One round of the loop. */
  method NextPoint(t: Tables, host: HostId, pts: seq<Point>, i: nat, cache: map<string, Ownership>, ghost out: seq<Metric>)
    returns (failed: Option<Result<Sifted<Metric>, PostError>>, after: map<string, Ownership>, kept: seq<Metric>, queried: nat)
    requires i < |pts| && SoFar(t, host, pts[..i], cache, out)
    ensures failed.None? ==> SoFar(t, host, pts[..i + 1], after, out + kept) && queried == |after| - |cache| && |kept| <= 1
    ensures failed.Some? ==> failed.value == Resolved(t, host, pts) && failed.value.Err?
  {
    var o;
    o, after, queried := Owner(cache, t, host, pts[i]);
    if o.None? {
      FailsFirstAt(t, host, pts, i);
      return Some(Err(LookupFailed(i))), after, [], queried;
    }
    kept := FinalCheck(o.value, host, pts[i]);
    OneMoreDone(t, host, pts, i, cache, out, after, o.value);
    failed := None;
  }

  /** The cached loop gives what looking every point up gives, errors included, with one query per VM. */
  method ResolveOwnershipAndFinalCheck(t: Tables, host: HostId, pts: seq<Point>)
    returns (r: Result<Sifted<Metric>, PostError>, queries: nat)
    ensures r == Resolved(t, host, pts) && (r.Ok? ==> queries == |KeysOf(pts)|)
  {
    var cache: map<string, Ownership> := map[];
    var out: seq<Metric> := [];
    var dropped: int := 0;
    queries := 0;
    NothingDone(t, host, pts);
    for i := 0 to |pts|
      invariant SoFar(t, host, pts[..i], cache, out)
      invariant queries == |cache| && dropped == i - |out| && |out| <= i
    {
      var failed, after, kept, queried := NextPoint(t, host, pts, i, cache, out);
      queries := queries + queried;
      if failed.Some? {
        return failed.value, queries;
      }
      cache := after;
      out := out + kept;
      dropped := dropped + 1 - |kept|;
    }
    AllDone(t, host, pts, cache, out, dropped);
    r := Ok(Sifted(out, dropped));
  }

  lemma AllDone(t: Tables, host: HostId, pts: seq<Point>, cache: map<string, Ownership>, out: seq<Metric>, dropped: nat)
    requires SoFar(t, host, pts[..|pts|], cache, out) && dropped == |pts| - |out|
    ensures Resolved(t, host, pts) == Ok(Sifted(out, dropped)) && |cache| == |KeysOf(pts)|
  {
    assert pts[..|pts|] == pts;
    NoFailure(t, host, pts);
  }

  lemma NothingDone(t: Tables, host: HostId, pts: seq<Point>)
    ensures SoFar(t, host, pts[..0], map[], [])
  {
  }

  /** Where the loop stands: a coherent cache of the points seen, and the metrics of these points. */
  ghost predicate SoFar(t: Tables, host: HostId, pts: seq<Point>, cache: map<string, Ownership>, out: seq<Metric>) {
    Coherent(cache, t, host) && cache.Keys == KeysOf(pts) && AllFound(t, host, pts) && out == Direct(t, host, pts)
  }

  lemma OneMoreDone(t: Tables, host: HostId, pts: seq<Point>, i: nat, cache: map<string, Ownership>, out: seq<Metric>,
                    after: map<string, Ownership>, o: Ownership)
    requires i < |pts| && SoFar(t, host, pts[..i], cache, out)
    requires LookupVMOwnership(t, pts[i].vmId, pts[i].kind, host) == Some(o)
    requires Coherent(after, t, host) && after.Keys == cache.Keys + {CacheKey(pts[i].kind, pts[i].vmId)}
    ensures SoFar(t, host, pts[..i + 1], after, out + Metrics(o, host, pts[i]))
  {
    KeysSnoc(pts, i);
    OneMoreFound(t, host, pts, i, o);
  }

  // ---- The request ----

  datatype Response =
    | Rejected(status: nat)                      // 400, 401, 429 or 500
    | Answered(accepted: nat, dropped: nat)

  predicate WellShaped(host: HostId, wire: seq<WirePoint>) {
    host > 0 && 0 < |wire| <= MaxPoints
  }

  /** The request may be worked on: its shape is right, its token is the host's, and the limiter has a slot. */
  predicate LetIn(last: RateLimiter.Slots, host: HostId, wire: seq<WirePoint>, authenticated: bool, now: Time) {
    WellShaped(host, wire) && authenticated && RateLimiter.Allowed(last, RateLimiter.Call(host, now))
  }

  /** From the parsed request on: shape, token, rate, static checks, ownership, insert. What is inserted is returned.
      Only a well-shaped request with the host's token uses up a slot of the host. */
  method HandleAgentVMMetrics(t: Tables, limiter: RateLimiter.VmMetricsRateLimiter, host: HostId, wire: seq<WirePoint>,
                              now: Time, authenticated: bool, stored: bool)
    returns (r: Response, inserted: seq<Metric>)
    modifies limiter
    ensures limiter.last == if WellShaped(host, wire) && authenticated
                            then old(RateLimiter.After(limiter.last, RateLimiter.Call(host, now))) else old(limiter.last)
    ensures r.Answered? ==> r.accepted == |inserted| && r.accepted + r.dropped == |wire|
    ensures r.Answered? <==>
              && old(LetIn(limiter.last, host, wire, authenticated, now)) && FirstMalformed(wire, now) == |wire|
              && FirstFailure(t, host, FreshPoints(wire, now)) == |FreshPoints(wire, now)|
              && (stored || Direct(t, host, FreshPoints(wire, now)) == [])
    ensures r.Answered? ==> inserted == Direct(t, host, FreshPoints(wire, now))
    ensures r.Rejected? ==> inserted == [] && r.status in {400, 401, 429, 500}
    ensures r == Rejected(401) <==> WellShaped(host, wire) && !authenticated
    ensures r == Rejected(429) <==> WellShaped(host, wire) && authenticated && !old(LetIn(limiter.last, host, wire, true, now))
    ensures r == Rejected(400) <==>
              !WellShaped(host, wire) || (old(LetIn(limiter.last, host, wire, authenticated, now)) && FirstMalformed(wire, now) < |wire|)
  {
    inserted := [];
    if host <= 0 || |wire| == 0 || |wire| > MaxPoints {
      return Rejected(400), [];
    }
    if !authenticated {
      return Rejected(401), [];
    }
    var allowed := limiter.Allow(host, now);
    if !allowed {
      return Rejected(429), [];
    }
    var parsed := ParseAndStaticValidate(wire, now);
    if parsed.Err? {
      return Rejected(400), [];
    }
    var resolved, _ := ResolveOwnershipAndFinalCheck(t, host, parsed.value.points);
    if resolved.Err? {
      return Rejected(500), [];
    }
    if |resolved.value.points| > 0 && !stored {
      return Rejected(500), [];
    }
    return Answered(|resolved.value.points|, resolved.value.dropped + parsed.value.dropped), resolved.value.points;
  }

  function OwnRow(t: Tables, p: Point): Row {
    match p.kind
    case Machine => t.machines(p.vmId)
    case Browser => t.browsers(p.vmId)
  }

  /** The point's VM is in the table of its kind, on the posting host, and used no more than twice its CPUs. */
  predicate Stays(t: Tables, host: HostId, p: Point) {
    OwnRow(t, p).Row? && OwnRow(t, p).host == Some(host)
    && (p.cpu.Some? ==> p.cpu.value <= 2.0 * 100.0 * OwnRow(t, p).vcpus as real)
  }

  /** What is stored is exactly the points whose VM the tables place on the posting host and that keep its CPU limit, each
      under the account of its VM and with its own reading, in their order. */
  lemma {:induction false} DirectIsFaithful(t: Tables, host: HostId, pts: seq<Point>) returns (at: seq<nat>)
    requires AllFound(t, host, pts)
    ensures var ms := Direct(t, host, pts);
            && |at| == |ms|
            && (forall i, k :: 0 <= i < k < |at| ==> at[i] < at[k])
            && (forall i :: 0 <= i < |at| ==>
                  && at[i] < |pts| && Stays(t, host, pts[at[i]])
                  && ms[i] == Metric(OwnRow(t, pts[at[i]]).account, host, pts[at[i]]))
            && forall k: nat :: k < |pts| && Stays(t, host, pts[k]) ==> k in at
    decreases |pts|
  {
    if pts == [] {
      at := [];
    } else {
      var init, p := pts[..|pts| - 1], Last(pts);
      var before := DirectIsFaithful(t, host, init);
      assert Found(t, host, p);
      OwnMetric(t, host, p);
      at := before + if Stays(t, host, p) then [|pts| - 1] else [];
      forall k: nat | k < |pts| && Stays(t, host, pts[k])
        ensures k in at
      {
        if k < |init| {
          assert init[k] == pts[k] && k in before;
        }
      }
    }
  }

  lemma OwnMetric(t: Tables, host: HostId, p: Point)
    requires Found(t, host, p)
    ensures Metrics(LookupVMOwnership(t, p.vmId, p.kind, host).value, host, p)
            == if Stays(t, host, p) then [Metric(OwnRow(t, p).account, host, p)] else []
  {
  }
}
