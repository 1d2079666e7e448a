/** The browser VM handlers as the control plane writes them, each proved to be a run of its program. */
module BrowserHandlers {
  import opened Common
  import opened BrowserVm
  import opened BrowserFleet

  /** How the next call really ends: a fate the call cannot have counts as a plain failure. */
  function Actual(w: World, b: VmId, p: Program, host: HostId, fates: seq<Fate>): Fate
    requires b in w.vms
  {
    if fates != [] && Possible(p, host, w.vms[b], fates[0]) && HasRoom(w, w.vms[b], fates[0]) then fates[0] else Fails
  }

  function Rest<T>(s: seq<T>): seq<T> {
    if s == [] then [] else s[1..]
  }

  /** The tables and agents after one call. */
  function AfterCall(w: World, b: VmId, p: Program, host: HostId, f: Fate): World
    requires b in w.vms
  {
    var vm' := CallEffect(p, host, w.vms[b], f);
    w.(vms := w.vms[b := vm'], hosts := Charged(w.hosts, w.vms[b], vm'))
  }

  /** The tables and agents after a whole program, when its calls end as `fates` says. */
  function Outcome(w: World, b: VmId, p: Program, host: HostId, fates: seq<Fate>): World
    requires b in w.vms
    decreases p
  {
    if p.Done? then w
    else
      var f := Actual(w, b, p, host, fates);
      NextIsSmaller(p, f);
      Outcome(AfterCall(w, b, p, host, f), b, Next(p, f), NextHost(p, host, f), Rest(fates))
  }

  lemma NextIsSmaller(p: Program, f: Fate)
    requires !p.Done?
    ensures Next(p, f) < p
  {
  }

  lemma HealthUnfolds(w: World, b: VmId, gone: Program, ready: Program, notReady: Program, err: Program, host: HostId, fates: seq<Fate>)
    requires b in w.vms
    ensures var p, q := Health(gone, ready, notReady, err), Health(Done, Done, Done, Done);
            var f := Actual(w, b, q, host, fates);
            Outcome(w, b, p, host, fates) == Outcome(AfterCall(w, b, q, host, f), b, Next(p, f), host, Rest(fates))
  {
  }

  datatype Reply = NotFound | Conflict | HostUnavailable | AgentError | StoreError | NoCapacity | OutcomeUnknown | Accepted

  datatype CreateAnswer = Created | NotCreated | MayBeCreated

  datatype HealthAnswer = IsGone | IsReady | IsNotReady | NoAnswer

  function AfterHealth(answer: HealthAnswer, gone: Program, ready: Program, notReady: Program, err: Program): Program {
    match answer
    case IsGone => gone
    case IsReady => ready
    case IsNotReady => notReady
    case NoAnswer => err
  }

  // ---- What the coming calls do ----

  /** The call `i` from now on is one that succeeds. */
  predicate Well(fates: seq<Fate>, i: nat) {
    i < |fates| && fates[i] == Succeeds
  }

  /** The fates from call `i` on. */
  function From<T>(s: seq<T>, i: nat): seq<T> {
    if i <= |s| then s[i..] else []
  }

  lemma RestOfFrom(fates: seq<Fate>, i: nat)
    ensures Rest(From(fates, i)) == From(fates, i + 1)
    ensures Well(From(fates, i), 0) == Well(fates, i)
    ensures From(fates, i) != [] <==> i < |fates|
    ensures i < |fates| ==> From(fates, i)[0] == fates[i]
  {
  }

  lemma ThreeRests(fates: seq<Fate>)
    ensures forall i: nat, k: nat, f :: Says(From(fates, i), k, f) == Says(fates, i + k, f)
    ensures Rest(fates) == From(fates, 1) && Rest(Rest(fates)) == From(fates, 2) && Rest(Rest(Rest(fates))) == From(fates, 3)
    ensures forall i: nat, k: nat :: Well(From(fates, i), k) == Well(fates, i + k)
  {
    RestOfFrom(fates, 0);
    RestOfFrom(fates, 1);
    RestOfFrom(fates, 2);
  }

  /** A stop of a VM with a host is answered after the host look-up and the agent's destroy. */
  function StopReply(r: Record, coming: seq<Fate>): Reply {
    if r.host.None? then Accepted
    else if !Well(coming, 0) then HostUnavailable
    else if !Well(coming, 1) then AgentError
    else Accepted
  }

  /** What a stop leaves, write by write: an accepted one releases the placement, forgets the host and says stopped,
      as far as each of these writes succeeds, and the VM is off its host; the others say at most that it failed. */
  predicate Stopping(vm: Vm, coming: seq<Fate>, after: Vm)
    requires vm.record.Some?
  {
    var r := vm.record.value;
    var k: nat := if r.host.Some? then 2 else 0;
    match StopReply(r, coming)
    case Accepted =>
      && after.record == Some(Record(if Well(coming, k + 2) then Stopped else r.status, if Well(coming, k + 1) then None else r.host))
      && after.placement == (if Well(coming, k) then None else vm.placement)
      && after.live == (if r.host.Some? then vm.live - {r.host.value} else vm.live)
    case HostUnavailable =>
      after == vm.(record := Some(r.(status := if Well(coming, 1) then Error else r.status)))
    case _ =>
      && after.record == Some(r.(status := if Well(coming, 2) then Error else r.status))
      && after.placement == vm.placement
  }

  predicate MayRun(r: Record) {
    r.host.Some? && r.status != Stopped
  }

  /** A delete of a VM that may run is answered after the host look-up, the agent's destroy and the deletion. */
  function DeleteReply(r: Record, coming: seq<Fate>): Reply {
    if MayRun(r) && !Well(coming, 0) then HostUnavailable
    else if MayRun(r) && !Well(coming, 1) then AgentError
    else if !Well(coming, if MayRun(r) then 4 else 0) then StoreError
    else Accepted
  }

  /** What a delete leaves: an accepted one has destroyed a VM that may run, and dropped the record; only such a VM's
      placement is released and its host forgotten before. */
  predicate Deleting(vm: Vm, coming: seq<Fate>, after: Vm)
    requires vm.record.Some?
  {
    var r := vm.record.value;
    match DeleteReply(r, coming)
    case Accepted =>
      after == vm.(record := None, placement := None, live := if MayRun(r) then vm.live - {r.host.value} else vm.live)
    case StoreError =>
      if MayRun(r) then
        after == vm.(record := Some(r.(host := if Well(coming, 3) then None else r.host)),
                     placement := if Well(coming, 2) then None else vm.placement, live := vm.live - {r.host.value})
      else after == vm
    case HostUnavailable =>
      after == vm.(record := Some(r.(status := if Well(coming, 1) then Error else r.status)))
    case _ =>
      && after.record == Some(r.(status := if Well(coming, 2) then Error else r.status))
      && after.placement == vm.placement
  }

  /** From the create on, for a VM that is assigned to `h`. */
  function LaunchReply(coming: seq<Fate>): Reply {
    if coming != [] && coming[0] == Unknown then OutcomeUnknown
    else if !Well(coming, 0) then AgentError
    else if !Well(coming, 1) then OutcomeUnknown
    else Accepted
  }

  /** What a launch leaves: a VM that is ready runs on its host and is recorded as running there; one that is not, or
      that may have been created, stays assigned and failed; a refused one is taken off the host again. */
  predicate Launching(vm: Vm, h: HostId, coming: seq<Fate>, after: Vm) {
    match LaunchReply(coming)
    case Accepted =>
      after == vm.(record := Some(Record(if Well(coming, 3) then Running else Provisioning, Some(h))), live := vm.live + {h})
    case AgentError =>
      after == vm.(record := Some(Record(if Well(coming, 1) then Error else Provisioning, if Well(coming, 3) then None else Some(h))),
                   placement := if Well(coming, 2) then None else vm.placement)
    case _ =>
      if Well(coming, 0) then
        after == vm.(record := Some(Record(if Well(coming, 2) then Error else Provisioning, Some(h))), live := vm.live + {h})
      else
        after == vm.(record := Some(Record(if Well(coming, 1) then Error else Provisioning, Some(h))), pending := vm.pending + {h})
  }

  /** `place` is the host that the placement service gives, if it gives one. */
  function StartReply(place: Option<HostId>, coming: seq<Fate>): Reply {
    if !Well(coming, 0) then StoreError
    else if place.None? then NoCapacity
    else if !Well(coming, 2) then StoreError
    else LaunchReply(From(coming, 3))
  }

  /** What is left once the placement is held: an assignment that fails gives the placement up again. */
  predicate Assigning(vm: Vm, h: HostId, coming: seq<Fate>, after: Vm)
    requires vm.record.Some?
  {
    if Well(coming, 0) then Launching(vm.(record := WithHost(vm.record, Some(h))), h, From(coming, 1), after)
    else
      after == vm.(record := Some(vm.record.value.(status := if Well(coming, 1) then Error else vm.record.value.status)),
                   placement := if Well(coming, 2) then None else vm.placement)
  }

  /** What a start leaves. */
  predicate Starting(vm: Vm, place: Option<HostId>, coming: seq<Fate>, after: Vm)
    requires vm.record.Some?
  {
    if !Well(coming, 0) then after == vm
    else if place.None? then
      && after.record == Some(Record(if Well(coming, 2) then Error else Provisioning, vm.record.value.host))
      && after.live == vm.live && after.pending == vm.pending && (vm.placement.Some? ==> after.placement == vm.placement)
    else
      Assigning(vm.(record := WithStatus(vm.record, Provisioning), placement := place), place.value, From(coming, 2), after)
  }

  predicate Says(coming: seq<Fate>, i: nat, f: Fate) {
    i < |coming| && coming[i] == f
  }

  /** Three writes, up to the first that fails: the placement is released, the host forgotten, the VM stopped. */
  predicate Freed(vm: Vm, coming: seq<Fate>, done: bool, after: Vm)
    requires vm.record.Some?
  {
    && done == (Well(coming, 0) && Well(coming, 1) && Well(coming, 2))
    && after == vm.(record := Some(Record(if done then Stopped else vm.record.value.status,
                                          if Well(coming, 0) && Well(coming, 1) then None else vm.record.value.host)),
                    placement := if Well(coming, 0) then None else vm.placement)
  }

  /** The agent's next answer about a VM's health: truthful, or none. */
  function HealthOf(vm: Vm, host: HostId, coming: seq<Fate>): HealthAnswer {
    if Says(coming, 0, AgentSaysGone) && host !in vm.live then IsGone
    else if Says(coming, 0, AgentSaysReady) && host in vm.live then IsReady
    else if Says(coming, 0, AgentSaysNotReady) && host in vm.live then IsNotReady
    else NoAnswer
  }

  predicate Settled(vm: Vm, answer: HealthAnswer, coming: seq<Fate>, done: bool, after: Vm)
    requires vm.record.Some?
  {
    var r := vm.record.value;
    match answer
    case IsGone => Freed(vm, coming, done, after)
    case IsReady =>
      && done == (Well(coming, 0) && Well(coming, 1))
      && after == vm.(record := Some(r.(status := if done then Running else r.status)))
    case IsNotReady =>
      done && after == vm.(record := Some(r.(status := if Well(coming, 0) then Error else r.status)))
    case NoAnswer => after == vm && !done
  }

  /** What reconciliation leaves of a VM on `h`, and whether it counts as done: a VM the agent does not have is released,
      unassigned and stopped, up to the first write that fails; a ready one is activated and running; one that is not
      ready has failed; without an answer nothing changes. */
  predicate Reconciling(vm: Vm, h: HostId, coming: seq<Fate>, done: bool, after: Vm)
    requires vm.record.Some?
  {
    if !Well(coming, 0) then after == vm && !done
    else Settled(vm, HealthOf(vm, h, From(coming, 1)), From(coming, 2), done, after)
  }

  /** What the replay of a pairing leaves: a VM the agent does not have has failed, and loses its host and placement. */
  predicate Replaying(vm: Vm, h: HostId, coming: seq<Fate>, after: Vm)
    requires vm.record.Some?
  {
    var r := vm.record.value;
    if Says(coming, 0, AgentSaysGone) && h !in vm.live then
      after == vm.(record := Some(Record(if Well(coming, 1) then Error else r.status, if Well(coming, 2) then None else r.host)),
                   placement := if Well(coming, 3) then None else vm.placement)
    else after == vm
  }

  lemma FromTwice<T>(s: seq<T>, i: nat, k: nat)
    ensures From(From(s, i), k) == From(s, i + k)
  {
  }

  /** After an accepted start the VM runs on the reserved host, where it is assigned and its placement is held, and it is
      recorded as running if the last write succeeded. */
  lemma AcceptedStart(vm: Vm, place: Option<HostId>, coming: seq<Fate>, after: Vm)
    requires vm.record.Some? && Starting(vm, place, coming, after) && StartReply(place, coming) == Accepted
    ensures place.Some? && place.value in after.live && after.placement == place
    ensures after.record == Some(Record(if Well(coming, 6) then Running else Provisioning, place))
  {
    FromTwice(coming, 2, 1);
    ThreeRests(coming);
  }

  /** With every call a success, a start is accepted. */
  lemma SmoothStart(place: Option<HostId>, coming: seq<Fate>)
    requires place.Some? && Well(coming, 0) && Well(coming, 2) && Well(coming, 3) && Well(coming, 4)
    ensures StartReply(place, coming) == Accepted
  {
    ThreeRests(coming);
    RestOfFrom(coming, 3);
  }

  class ControlPlane {
    var vms: map<VmId, Vm>
    var hosts: map<HostId, Host>
    var fates: seq<Fate>          // how the coming calls end

    ghost function State(): World
      reads this
    {
      World(vms, map[], hosts)
    }

    /** What is left of a program, with the state and the fates as they are now. */
    ghost function Final(b: VmId, p: Program, host: HostId): World
      requires b in vms
      reads this
    {
      Outcome(State(), b, p, host, fates)
    }

    constructor (vms: map<VmId, Vm>, hosts: map<HostId, Host>, fates: seq<Fate>)
      ensures this.vms == vms && this.hosts == hosts && this.fates == fates
    {
      this.vms, this.hosts, this.fates := vms, hosts, fates;
    }

    /** One call: it ends as the next fate says, if it can. */
    method Call(b: VmId, p: Program, host: HostId) returns (f: Fate)
      requires b in vms && !p.Done?
      modifies this
      ensures f == old(Actual(State(), b, p, host, fates)) && fates == Rest(old(fates))
      ensures State() == old(AfterCall(State(), b, p, host, f)) && b in vms
    {
      f := Actual(World(vms, map[], hosts), b, p, host, fates);
      var vm' := CallEffect(p, host, vms[b], f);
      hosts := Charged(hosts, vms[b], vm');
      vms := vms[b := vm'];
      fates := Rest(fates);
    }

    // Each operation of the store, the placement service and the agent client takes, as ghosts, the programs
    // that follow it, and moves the handler one call forward in its program.

    method StoreCall(b: VmId, call: StoreCall, host: HostId, ghost ok: Program, ghost bad: Program) returns (err: bool)
      requires b in vms
      modifies this
      ensures b in vms && fates == Rest(old(fates)) && err == !old(Well(fates, 0))
      ensures vms[b] == if err then old(vms[b]) else StoreEffect(call, host, old(vms[b]))
      ensures vms[b].placement == old(vms[b].placement) ==> hosts == old(hosts)
      ensures Final(b, if err then bad else ok, host) == old(Final(b, Store(call, ok, bad), host))
    {
      var f := Call(b, Store(call, Done, Done), host);
      err := !f.Succeeds?;
    }

    /** A store call whose error is ignored or only logged. */
    method TryStore(b: VmId, call: StoreCall, host: HostId, ghost next: Program)
      requires b in vms
      modifies this
      ensures b in vms && fates == Rest(old(fates))
      ensures vms[b] == if old(Well(fates, 0)) then StoreEffect(call, host, old(vms[b])) else old(vms[b])
      ensures Final(b, next, host) == old(Final(b, Store(call, next, next), host))
    {
      var _ := StoreCall(b, call, host, next, next);
    }

    method GetHost(b: VmId, host: HostId, ghost ok: Program, ghost bad: Program) returns (err: bool)
      requires b in vms
      modifies this
      ensures b in vms && fates == Rest(old(fates)) && err == !old(Well(fates, 0)) && vms[b] == old(vms[b])
      ensures Final(b, if err then bad else ok, host) == old(Final(b, LookupHost(ok, bad), host))
    {
      var f := Call(b, LookupHost(Done, Done), host);
      err := !f.Succeeds?;
    }

    /** The next call reserves a place on a host that has room. */
    ghost predicate Reserves(b: VmId, fates: seq<Fate>)
      requires b in vms
      reads this
    {
      fates != [] && fates[0].OnHost? && vms[b].placement.None? && HasRoom(State(), vms[b], fates[0])
    }

    method ReserveBrowserVM(b: VmId, before: HostId, ghost ok: Program, ghost bad: Program) returns (host: HostId, err: bool)
      requires b in vms
      modifies this
      ensures b in vms && (err ==> host == before) && fates == Rest(old(fates))
      ensures err == !old(Reserves(b, fates)) && (!err ==> host == old(fates)[0].host)
      ensures !err ==> vms[b] == old(vms[b]).(placement := Some(host))
      ensures err ==> vms[b] == old(vms[b]) || (old(vms[b]).placement.None? && vms[b] == old(vms[b]).(placement := vms[b].placement))
      ensures Final(b, if err then bad else ok, host) == old(Final(b, Reserve(ok, bad), before))
    {
      var f := Call(b, Reserve(Done, Done), before);
      err := !f.OnHost?;
      host := if f.OnHost? then f.host else before;
    }

    method CreateOnAgent(b: VmId, host: HostId, ghost ok: Program, ghost failed: Program, ghost unknown: Program)
      returns (answer: CreateAnswer)
      requires b in vms
      modifies this
      ensures b in vms && fates == Rest(old(fates))
      ensures answer == Created <==> old(Well(fates, 0))
      ensures answer == MayBeCreated <==> old(fates != [] && fates[0] == Unknown)
      ensures vms[b] == match answer
                        case Created => old(vms[b]).(live := old(vms[b]).live + {host})
                        case MayBeCreated => old(vms[b]).(pending := old(vms[b]).pending + {host})
                        case NotCreated => old(vms[b])
      ensures Final(b, match answer case Created => ok case NotCreated => failed case MayBeCreated => unknown, host) ==
              old(Final(b, Create(ok, failed, unknown), host))
    {
      var f := Call(b, Create(Done, Done, Done), host);
      answer := if f.Succeeds? then Created else if f.Unknown? then MayBeCreated else NotCreated;
    }

    method WaitForBrowserVMReady(b: VmId, host: HostId, ghost ok: Program, ghost bad: Program) returns (err: bool)
      requires b in vms
      modifies this
      ensures b in vms && fates == Rest(old(fates)) && vms[b] == old(vms[b])
      ensures err == !(old(Well(fates, 0)) && host in vms[b].live)
      ensures Final(b, if err then bad else ok, host) == old(Final(b, WaitReady(ok, bad), host))
    {
      var f := Call(b, WaitReady(Done, Done), host);
      err := !f.Succeeds?;
    }

    method DestroyOnAgent(b: VmId, host: HostId, ghost ok: Program, ghost bad: Program) returns (err: bool)
      requires b in vms
      modifies this
      ensures b in vms && fates == Rest(old(fates)) && err == !old(Well(fates, 0))
      ensures vms[b] == old(vms[b]).(live := vms[b].live)
      ensures vms[b].live == old(vms[b]).live - {host} || (err && vms[b].live == old(vms[b]).live)
      ensures Final(b, if err then bad else ok, host) == old(Final(b, Destroy(ok, bad), host))
    {
      var f := Call(b, Destroy(Done, Done), host);
      err := !f.Succeeds?;
    }

    method HealthOnAgent(b: VmId, host: HostId, ghost gone: Program, ghost ready: Program, ghost notReady: Program, ghost bad: Program)
      returns (answer: HealthAnswer)
      requires b in vms
      modifies this
      ensures b in vms && fates == Rest(old(fates)) && vms[b] == old(vms[b])
      ensures answer == HealthOf(old(vms[b]), host, old(fates))
      ensures Final(b, AfterHealth(answer, gone, ready, notReady, bad), host)
              == old(Final(b, Health(gone, ready, notReady, bad), host))
    {
      HealthUnfolds(State(), b, gone, ready, notReady, bad, host, fates);
      var f := Call(b, Health(Done, Done, Done, Done), host);
      answer := if f.AgentSaysGone? then IsGone else if f.AgentSaysReady? then IsReady
                else if f.AgentSaysNotReady? then IsNotReady else NoAnswer;
      assert AfterHealth(answer, gone, ready, notReady, bad) == Next(Health(gone, ready, notReady, bad), f);
    }

    method PairOnAgent(b: VmId, host: HostId, ghost gone: Program, ghost other: Program) returns (notFound: bool)
      requires b in vms
      modifies this
      ensures b in vms && fates == Rest(old(fates)) && vms[b] == old(vms[b])
      ensures notFound <==> old(Says(fates, 0, AgentSaysGone)) && host !in vms[b].live
      ensures Final(b, if notFound then gone else other, host) == old(Final(b, Pair(gone, other), host))
    {
      var f := Call(b, Pair(Done, Done), host);
      notFound := f.AgentSaysGone?;
    }

    /** Release the placement, forget the host, mark stopped; errors are only logged. */
    method Finish(b: VmId, host: HostId)
      requires b in vms
      modifies this
      ensures b in vms && Final(b, Done, host) == old(Final(b, FinishStop, host))
      ensures vms[b] == old(vms[b]).(record := vms[b].record, placement := if Well(old(fates), 0) then None else old(vms[b]).placement)
      ensures old(vms[b].record.Some?) ==>
                vms[b].record == Some(Record(if Well(old(fates), 2) then Stopped else old(vms[b].record.value.status),
                                             if Well(old(fates), 1) then None else old(vms[b].record.value.host)))
    {
      RestOfFrom(fates, 0);
      RestOfFrom(fates, 1);
      RestOfFrom(fates, 2);
      TryStore(b, Release, host, BestEffort([Unassign, SetStatus(Stopped)]));
      TryStore(b, Unassign, host, BestEffort([SetStatus(Stopped)]));
      TryStore(b, SetStatus(Stopped), host, Done);
    }

    method MarkError(b: VmId, host: HostId)
      requires b in vms
      modifies this
      ensures b in vms && Final(b, Done, host) == old(Final(b, KeepAsError, host))
      ensures vms[b] == old(vms[b]).(record := if Well(old(fates), 0) then WithStatus(old(vms[b].record), Error) else old(vms[b].record))
    {
      TryStore(b, SetStatus(Error), host, Done);
    }

    method HandleStop(b: VmId) returns (reply: Reply)
      requires b in vms
      modifies this
      ensures reply == NotFound <==> old(vms[b].record.None?)
      ensures reply == Conflict <==> old(vms[b].record.Some? && !Enabled(HStop, vms[b].record.value))
      ensures reply == Conflict <==>
                old(vms[b].record.Some? && (vms[b].record.value.status == Stopped || vms[b].record.value == Record(Error, None)))
      ensures reply in {NotFound, Conflict} ==> State() == old(State())
      ensures reply !in {NotFound, Conflict} ==>
                State() == old(var r := vms[b].record.value; Final(b, StopProgram(r), FirstHost(r)))
      ensures reply !in {NotFound, Conflict} ==>
                var (vm, coming) := (old(vms[b]), old(fates));
                b in vms && reply == StopReply(vm.record.value, coming) && Stopping(vm, coming, vms[b])
    {
      if vms[b].record.None? {
        return NotFound;
      }
      ThreeRests(fates);
      var bvm := vms[b].record.value;
      if !bvm.status.Running? && !bvm.status.Provisioning? && (!bvm.status.Error? || bvm.host.None?) {
        return Conflict;
      }
      if bvm.host.Some? {
        var host := bvm.host.value;
        var err := GetHost(b, host, Destroy(FinishStop, KeepAsError), KeepAsError);
        if err {
          MarkError(b, host);
          return HostUnavailable;
        }
        err := DestroyOnAgent(b, host, FinishStop, KeepAsError);
        if err {
          MarkError(b, host);
          return AgentError;
        }
      }
      Finish(b, FirstHost(bvm));
      return Accepted;
    }

    method ReleaseAndUnassign(b: VmId, host: HostId)
      requires b in vms
      modifies this
      ensures b in vms && Final(b, DropRecord, host) == old(Final(b, ReleaseThenDrop, host))
      ensures fates == From(old(fates), 2)
      ensures vms[b] == old(vms[b]).(record := if old(Well(fates, 1)) then WithHost(old(vms[b]).record, None) else old(vms[b]).record,
                                     placement := if old(Well(fates, 0)) then None else old(vms[b]).placement)
    {
      ThreeRests(fates);
      TryStore(b, Release, host, Then([Unassign], DropRecord));
      TryStore(b, Unassign, host, DropRecord);
    }

    method DeleteBrowserVMRecord(b: VmId, host: HostId) returns (err: bool)
      requires b in vms
      modifies this
      ensures b in vms && Final(b, Done, host) == old(Final(b, DropRecord, host))
      ensures err == !old(Well(fates, 0))
      ensures vms[b] == if err then old(vms[b]) else old(vms[b]).(record := None, placement := None)
    {
      var f := Call(b, DropRecord, host);
      err := !f.Succeeds?;
    }

    method HandleDelete(b: VmId) returns (reply: Reply)
      requires b in vms
      modifies this
      ensures reply == NotFound <==> old(vms[b].record.None?)
      ensures reply == NotFound ==> State() == old(State())
      ensures reply != NotFound ==>
                State() == old(var r := vms[b].record.value; Final(b, DeleteProgram(r), FirstHost(r)))
      ensures b in vms && (reply == Accepted ==> vms[b].record.None?)
      ensures reply != NotFound ==>
                var (vm, coming) := (old(vms[b]), old(fates));
                reply == DeleteReply(vm.record.value, coming) && Deleting(vm, coming, vms[b])
    {
      if vms[b].record.None? {
        return NotFound;
      }
      ThreeRests(fates);
      var bvm := vms[b].record.value;
      var host := FirstHost(bvm);
      if MayExistOnAgent(bvm) {
        var err := GetHost(b, host, Destroy(ReleaseThenDrop, KeepAsError), KeepAsError);
        if err {
          MarkError(b, host);
          return HostUnavailable;
        }
        err := DestroyOnAgent(b, host, ReleaseThenDrop, KeepAsError);
        if err {
          MarkError(b, host);
          return AgentError;
        }
        ReleaseAndUnassign(b, host);
      }
      var err := DeleteBrowserVMRecord(b, host);
      return if err then StoreError else Accepted;
    }

    method UndoAssign(b: VmId, host: HostId)
      requires b in vms
      modifies this
      ensures b in vms && Final(b, Done, host) == old(Final(b, AbandonAssign, host))
      ensures vms[b] == old(vms[b]).(record := if old(Well(fates, 0)) then WithStatus(old(vms[b]).record, Error) else old(vms[b]).record,
                                     placement := if old(Well(fates, 1)) then None else old(vms[b]).placement)
    {
      ThreeRests(fates);
      TryStore(b, SetStatus(Error), host, BestEffort([Release]));
      TryStore(b, Release, host, Done);
    }

    method UndoCreate(b: VmId, host: HostId)
      requires b in vms
      modifies this
      ensures b in vms && Final(b, Done, host) == old(Final(b, AbandonCreate, host))
      ensures vms[b] == old(vms[b]).(record := vms[b].record, placement := if old(Well(fates, 1)) then None else old(vms[b]).placement)
      ensures old(vms[b].record.Some?) ==>
                vms[b].record == Some(Record(if old(Well(fates, 0)) then Error else old(vms[b].record.value.status),
                                             if old(Well(fates, 2)) then None else old(vms[b].record.value.host)))
    {
      ThreeRests(fates);
      TryStore(b, SetStatus(Error), host, BestEffort([Release, Unassign]));
      TryStore(b, Release, host, BestEffort([Unassign]));
      TryStore(b, Unassign, host, Done);
    }

    method MarkLive(b: VmId, host: HostId)
      requires b in vms
      modifies this
      ensures b in vms && Final(b, Done, host) == old(Final(b, GoLive, host))
      ensures vms[b] == old(vms[b]).(record := if old(Well(fates, 1)) then WithStatus(old(vms[b]).record, Running) else old(vms[b]).record)
    {
      ThreeRests(fates);
      TryStore(b, Activate, host, BestEffort([SetStatus(Running)]));
      TryStore(b, SetStatus(Running), host, Done);
    }

    /** From the agent's create call on. */
    method Launch(b: VmId, host: HostId) returns (reply: Reply)
      requires b in vms
      modifies this
      ensures b in vms && Final(b, Done, host) == old(Final(b, CreateAndWait, host))
      ensures old(vms[b].record == Some(Record(Provisioning, Some(host)))) ==>
                reply == LaunchReply(old(fates)) && Launching(old(vms[b]), host, old(fates), vms[b])
      ensures reply !in {NotFound, Conflict}
    {
      ThreeRests(fates);
      var answer := CreateOnAgent(b, host, WaitReady(GoLive, KeepAsError), AbandonCreate, KeepAsError);
      if answer != Created {
        if answer == MayBeCreated {
          MarkError(b, host);
          return OutcomeUnknown;
        }
        UndoCreate(b, host);
        return AgentError;
      }
      var err := WaitForBrowserVMReady(b, host, GoLive, KeepAsError);
      if err {
        MarkError(b, host);
        return OutcomeUnknown;
      }
      MarkLive(b, host);
      return Accepted;
    }

    /** From the assignment on, with the placement held on `host`. */
    method AssignAndLaunch(b: VmId, host: HostId) returns (reply: Reply)
      requires b in vms
      modifies this
      ensures b in vms && Final(b, Done, host) == old(Final(b, AssignAndCreate, host))
      ensures reply !in {NotFound, Conflict}
      ensures old(vms[b].record.Some? && vms[b].record.value.status == Provisioning && vms[b].placement == Some(host)) ==>
                var (vm, coming) := (old(vms[b]), old(fates));
                && reply == (if Well(coming, 0) then LaunchReply(From(coming, 1)) else StoreError)
                && Assigning(vm, host, coming, vms[b])
    {
      ThreeRests(fates);
      var err := StoreCall(b, Assign, host, CreateAndWait, AbandonAssign);
      if err {
        UndoAssign(b, host);
        return StoreError;
      }
      reply := Launch(b, host);
    }

    /** The host that the second call from now on reserves. */
    ghost function PlaceFor(b: VmId): Option<HostId>
      requires b in vms
      reads this
    {
      if Reserves(b, From(fates, 1)) then Some(fates[1].host) else None
    }

    method HandleStart(b: VmId) returns (reply: Reply)
      requires b in vms
      modifies this
      ensures reply == NotFound <==> old(vms[b].record.None?)
      ensures reply == Conflict <==> old(vms[b].record.Some? && !Enabled(HStart, vms[b].record.value))
      ensures reply in {NotFound, Conflict} ==> State() == old(State())
      ensures reply == Conflict <==>
                old(vms[b].record.Some? &&
                    var r := vms[b].record.value; r.status in {Running, Provisioning} || (r.status == Error && r.host.Some?))
      ensures reply !in {NotFound, Conflict} ==>
                State() == old(var r := vms[b].record.value; Final(b, StartProgram, FirstHost(r)))
      ensures reply !in {NotFound, Conflict} ==>
                var (vm, place, coming) := (old(vms[b]), old(PlaceFor(b)), old(fates));
                b in vms && reply == StartReply(place, coming) && Starting(vm, place, coming, vms[b])
      ensures reply == Accepted ==>
                var h := old(PlaceFor(b)).value;
                && b in vms && h in vms[b].live && vms[b].placement == Some(h)
                && vms[b].record == Some(Record(if old(Well(fates, 6)) then Running else Provisioning, Some(h)))
    {
      if vms[b].record.None? {
        return NotFound;
      }
      ThreeRests(fates);
      FromTwice(fates, 2, 1);
      ghost var vm, place, coming := vms[b], PlaceFor(b), fates;
      var bvm := vms[b].record.value;
      if !bvm.status.Stopped? && !bvm.status.Error? {
        return Conflict;
      }
      if bvm.status.Error? && bvm.host.Some? {
        return Conflict;
      }
      var err := StoreCall(b, SetStatus(Provisioning), FirstHost(bvm), Reserve(AssignAndCreate, KeepAsError), Done);
      if err {
        return StoreError;
      }
      var host;
      host, err := ReserveBrowserVM(b, FirstHost(bvm), AssignAndCreate, KeepAsError);
      if err {
        MarkError(b, host);
        return NoCapacity;
      }
      reply := AssignAndLaunch(b, host);
      if reply == Accepted {
        AcceptedStart(vm, place, coming, vms[b]);
      }
    }

    /** Releases, unassigns and stops a VM that the agent does not have, up to the first error. */
    method FreeAbsent(b: VmId, host: HostId) returns (done: bool)
      requires b in vms
      modifies this
      ensures b in vms && Final(b, Done, host) == old(Final(b, ReleaseAbsent, host))
      ensures old(vms[b].record.Some?) ==> Freed(old(vms[b]), old(fates), done, vms[b])
    {
      ThreeRests(fates);
      var err := StoreCall(b, Release, host, ReleaseAbsent.ok, Done);
      if err {
        return false;
      }
      err := StoreCall(b, Unassign, host, ReleaseAbsent.ok.ok, Done);
      if err {
        return false;
      }
      err := StoreCall(b, SetStatus(Stopped), host, Done, Done);
      return !err;
    }

    method MarkReady(b: VmId, host: HostId) returns (done: bool)
      requires b in vms
      modifies this
      ensures b in vms && Final(b, Done, host) == old(Final(b, ReconcileProgram.ok.ready, host))
      ensures done == old(Well(fates, 0) && Well(fates, 1))
      ensures vms[b] == old(vms[b]).(record := if done then WithStatus(old(vms[b]).record, Running) else old(vms[b]).record)
    {
      ThreeRests(fates);
      var err := StoreCall(b, Activate, host, ReconcileProgram.ok.ready.ok, Done);
      if err {
        return false;
      }
      err := StoreCall(b, SetStatus(Running), host, Done, Done);
      return !err;
    }

    method ActOnHealth(b: VmId, host: HostId, answer: HealthAnswer) returns (done: bool)
      requires b in vms
      modifies this
      ensures b in vms
      ensures var ask := ReconcileProgram.ok;
              Final(b, Done, host) == old(Final(b, AfterHealth(answer, ask.gone, ask.ready, ask.notReady, Done), host))
      ensures old(vms[b].record.Some?) ==> Settled(old(vms[b]), answer, old(fates), done, vms[b])
    {
      match answer
      case IsGone => done := FreeAbsent(b, host);
      case NoAnswer => done := false;
      case IsReady => done := MarkReady(b, host);
      case IsNotReady =>
        MarkError(b, host);
        done := true;
    }

    /** Returns whether the reconciliation counts as done. */
    method ReconcileBrowserVM(b: VmId) returns (done: bool)
      requires b in vms
      modifies this
      ensures old(vms[b].record.None? || vms[b].record.value.host.None?) ==> !done && State() == old(State())
      ensures old(vms[b].record.Some? && vms[b].record.value.host.Some?) ==>
                State() == old(Final(b, ReconcileProgram, FirstHost(vms[b].record.value)))
      ensures old(vms[b].record.Some? && vms[b].record.value.host.Some?) ==>
                var vm := old(vms[b]);
                b in vms && Reconciling(vm, vm.record.value.host.value, old(fates), done, vms[b])
    {
      if vms[b].record.None? || vms[b].record.value.host.None? {
        return false;
      }
      ThreeRests(fates);
      var host := vms[b].record.value.host.value;
      ghost var ask := ReconcileProgram.ok;
      var err := GetHost(b, host, ask, Done);
      if err {
        return false;
      }
      var answer := HealthOnAgent(b, host, ask.gone, ask.ready, ask.notReady, Done);
      done := ActOnHealth(b, host, answer);
    }

    /** The heartbeat replays a pairing; an agent that no longer knows the VM releases it. */
    method ReplayPairing(b: VmId)
      requires b in vms
      modifies this
      ensures old(vms[b].record.Some? && Enabled(HHeartbeat, vms[b].record.value)) ==>
                State() == old(Final(b, HeartbeatProgram, FirstHost(vms[b].record.value)))
      ensures old(vms[b].record.None? || !Enabled(HHeartbeat, vms[b].record.value)) ==> State() == old(State())
      ensures old(vms[b].record.Some? && vms[b].record.value.status == Running && vms[b].record.value.host.Some?) ==>
                var vm := old(vms[b]);
                b in vms && Replaying(vm, vm.record.value.host.value, old(fates), vms[b])
      ensures !old(vms[b].record.Some? && vms[b].record.value.status == Running && vms[b].record.value.host.Some?) ==>
                State() == old(State())
    {
      ThreeRests(fates);
      if vms[b].record.None? || !vms[b].record.value.status.Running? || vms[b].record.value.host.None? {
        return;
      }
      var host := vms[b].record.value.host.value;
      var notFound := PairOnAgent(b, host, HeartbeatProgram.gone, Done);
      if notFound {
        TryStore(b, SetStatus(Error), host, BestEffort([Unassign, Release]));
        TryStore(b, Unassign, host, BestEffort([Release]));
        TryStore(b, Release, host, Done);
      }
    }
  }
}
