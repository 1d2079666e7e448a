/** The life of a browser VM: two stores that can disagree, the control plane's tables and the VMs
    on the agents, and handlers whose every call may fail. */
module BrowserVm {
  import opened Common

  type HostId = nat
  type VmId = string

  datatype Status = Stopped | Provisioning | Running | Error

  datatype Record = Record(status: Status, host: Option<HostId>)

  datatype Size = Size(vcpus: nat, memoryMB: nat)

  /** One browser VM: its database record, the unreleased placement, the agents that run it,
      and the creates whose outcome is still unknown. */
  datatype Vm = Vm(size: Size, record: Option<Record>, placement: Option<HostId>, live: set<HostId>, pending: set<HostId>)

  /** Whether the control plane must assume that an agent has the VM. */
  predicate MayExistOnAgent(r: Record) {
    r.host.Some? && (r.status.Running? || r.status.Provisioning? || r.status.Error?)
  }

  // ---- Handlers as programs ----

  datatype StoreCall = SetStatus(status: Status) | Assign | Unassign | Release | Activate | DeleteRecord

  /** What a handler still has to do. `Assign`, `Create`, `Destroy`, `Health` and `Pair` speak about the
      handler's local host variable, which `Reserve` sets. */
  datatype Program =
    | Done
    | Store(call: StoreCall, ok: Program, err: Program)
    | LookupHost(ok: Program, err: Program)
    | Reserve(ok: Program, err: Program)
    | Create(ok: Program, failed: Program, unknown: Program)
    | WaitReady(ok: Program, err: Program)
    | Destroy(ok: Program, err: Program)
    | Health(gone: Program, ready: Program, notReady: Program, err: Program)
    | Pair(gone: Program, other: Program)

  /** How one call ends. */
  datatype Fate =
    | Succeeds
    | Fails                      // without an effect
    | FailsLate                  // the effect happened, the answer was an error
    | Unknown                    // a create that may or may not land later
    | OnHost(host: HostId)       // a reservation on a host
    | HeldButFails(host: HostId) // a reservation that is reported as failed and could not be rolled back
    | AgentSaysGone | AgentSaysReady | AgentSaysNotReady

  function BestEffort(calls: seq<StoreCall>): Program {
    Then(calls, Done)
  }

  /** Store calls whose errors are only logged, then `next`. */
  function Then(calls: seq<StoreCall>, next: Program): Program {
    if calls == [] then next else Store(calls[0], Then(calls[1..], next), Then(calls[1..], next))
  }

  const KeepAsError := BestEffort([SetStatus(Error)])

  const GoLive := BestEffort([Activate, SetStatus(Running)])

  const AbandonCreate := BestEffort([SetStatus(Error), Release, Unassign])

  const AbandonAssign := BestEffort([SetStatus(Error), Release])

  const CreateAndWait := Create(WaitReady(GoLive, KeepAsError), AbandonCreate, KeepAsError)

  const AssignAndCreate := Store(Assign, CreateAndWait, AbandonAssign)

  const StartProgram := Store(SetStatus(Provisioning), Reserve(AssignAndCreate, KeepAsError), Done)

  const FinishStop := BestEffort([Release, Unassign, SetStatus(Stopped)])

  const DropRecord := Store(DeleteRecord, Done, Done)

  const ReleaseThenDrop := Then([Release, Unassign], DropRecord)

  function StopProgram(r: Record): Program {
    if r.host.Some? then LookupHost(Destroy(FinishStop, KeepAsError), KeepAsError) else FinishStop
  }

  function DeleteProgram(r: Record): Program {
    if MayExistOnAgent(r) then
      LookupHost(Destroy(ReleaseThenDrop, KeepAsError), KeepAsError)
    else DropRecord
  }

  /** On "not found" the three writes stop at the first error. */
  const ReleaseAbsent := Store(Release, Store(Unassign, Store(SetStatus(Stopped), Done, Done), Done), Done)

  const ReconcileProgram :=
    LookupHost(Health(ReleaseAbsent, Store(Activate, Store(SetStatus(Running), Done, Done), Done), KeepAsError, Done), Done)

  const HeartbeatProgram := Pair(BestEffort([SetStatus(Error), Unassign, Release]), Done)

  datatype Handler = HStart | HStop | HDelete | HReconcile | HHeartbeat

  /** The guard at the head of each handler, on the record it has read. */
  predicate Enabled(h: Handler, r: Record) {
    match h
    case HStart => r.status.Stopped? || (r.status.Error? && r.host.None?)
    case HStop => r.status.Running? || r.status.Provisioning? || (r.status.Error? && r.host.Some?)
    case HDelete => true
    case HReconcile => r.host.Some?
    case HHeartbeat => r.status.Running? && r.host.Some?
  }

  function ProgramOf(h: Handler, r: Record): Program {
    match h
    case HStart => StartProgram
    case HStop => StopProgram(r)
    case HDelete => DeleteProgram(r)
    case HReconcile => ReconcileProgram
    case HHeartbeat => HeartbeatProgram
  }

  // ---- Effects of calls ----

  function WithStatus(r: Option<Record>, s: Status): Option<Record> {
    if r.None? then None else Some(r.value.(status := s))
  }

  function WithHost(r: Option<Record>, h: Option<HostId>): Option<Record> {
    if r.None? then None else Some(r.value.(host := h))
  }

  function StoreEffect(call: StoreCall, host: HostId, vm: Vm): Vm {
    match call
    case SetStatus(s) => vm.(record := WithStatus(vm.record, s))
    case Assign => vm.(record := WithHost(vm.record, Some(host)))
    case Unassign => vm.(record := WithHost(vm.record, None))
    case Release => vm.(placement := None)
    case Activate => vm
    case DeleteRecord => vm.(record := None, placement := None)   // the placement row goes with the record
  }

  /** Whether a call can end this way for this VM. The agent answers truthfully about what it runs,
      and a VM has at most one unreleased placement. */
  predicate Possible(p: Program, host: HostId, vm: Vm, f: Fate) {
    match p
    case Done => false
    case Store(_, _, _) => f.Succeeds? || f.Fails?
    case LookupHost(_, _) => f.Succeeds? || f.Fails?
    case Reserve(_, _) => f.Fails? || ((f.OnHost? || f.HeldButFails?) && vm.placement.None?)
    case Create(_, _, _) => f.Succeeds? || f.Fails? || f.Unknown?
    case WaitReady(_, _) => f.Fails? || (f.Succeeds? && host in vm.live)
    case Destroy(_, _) => f.Succeeds? || f.Fails? || f.FailsLate?
    case Health(_, _, _, _) =>
      f.Fails? || (f.AgentSaysGone? && host !in vm.live) || ((f.AgentSaysReady? || f.AgentSaysNotReady?) && host in vm.live)
    case Pair(_, _) => f.Fails? || (f.AgentSaysGone? && host !in vm.live) || (f.Succeeds? && host in vm.live)
  }

  function CallEffect(p: Program, host: HostId, vm: Vm, f: Fate): Vm {
    match p
    case Store(call, _, _) => if f.Succeeds? then StoreEffect(call, host, vm) else vm
    case Reserve(_, _) => if f.OnHost? || f.HeldButFails? then vm.(placement := Some(f.host)) else vm
    case Create(_, _, _) =>
      if f.Succeeds? then vm.(live := vm.live + {host})
      else if f.Unknown? then vm.(pending := vm.pending + {host})
      else vm
    case Destroy(_, _) => if f.Succeeds? || f.FailsLate? then vm.(live := vm.live - {host}) else vm
    case _ => vm
  }

  function Next(p: Program, f: Fate): Program {
    match p
    case Done => Done
    case Store(_, ok, err) => if f.Succeeds? then ok else err
    case LookupHost(ok, err) => if f.Succeeds? then ok else err
    case Reserve(ok, err) => if f.OnHost? then ok else err
    case Create(ok, failed, unknown) => if f.Succeeds? then ok else if f.Unknown? then unknown else failed
    case WaitReady(ok, err) => if f.Succeeds? then ok else err
    case Destroy(ok, err) => if f.Succeeds? then ok else err
    case Health(gone, ready, notReady, err) =>
      if f.AgentSaysGone? then gone else if f.AgentSaysReady? then ready
      else if f.AgentSaysNotReady? then notReady else err
    case Pair(gone, other) => if f.AgentSaysGone? then gone else other
  }

  function NextHost(p: Program, host: HostId, f: Fate): HostId {
    if p.Reserve? && f.OnHost? then f.host else host
  }

  // ---- Safety of one VM ----

  /** Every host where the VM runs, or may turn up later. */
  function Maybe(vm: Vm): set<HostId> {
    vm.live + vm.pending
  }

  /** Nothing runs behind the control plane's back: the record exists, points to that very host, says that the
      agent may have the VM, and a placement on that host is held. */
  predicate Covered(vm: Vm) {
    forall h :: h in Maybe(vm) ==>
      vm.record.Some? && vm.record.value.host == Some(h) && MayExistOnAgent(vm.record.value) && vm.placement == Some(h)
  }

  /** A program that never asks an agent about the VM; the only kind that may run while a create is unresolved. */
  predicate AsksNoAgent(p: Program) {
    match p
    case Done => true
    case Store(_, ok, err) => AsksNoAgent(ok) && AsksNoAgent(err)
    case LookupHost(ok, err) => AsksNoAgent(ok) && AsksNoAgent(err)
    case Reserve(ok, err) => AsksNoAgent(ok) && AsksNoAgent(err)
    case WaitReady(ok, err) => AsksNoAgent(ok) && AsksNoAgent(err)
    case _ => false
  }

  /** The program keeps the VM covered in every state it can reach, however its calls end and whatever crashes.
      Stated over what may be running, so that it survives crashes and late arrivals. */
  ghost predicate Safe(p: Program, host: HostId, vm: Vm)
    decreases p
  {
    Covered(vm) && vm.pending == {} &&
    match p
    case Done => true
    case Store(call, ok, err) => Safe(ok, host, StoreEffect(call, host, vm)) && Safe(err, host, vm)
    case LookupHost(ok, err) => Safe(ok, host, vm) && Safe(err, host, vm)
    case Reserve(ok, err) =>
      Safe(err, host, vm) &&
      (vm.placement.None? ==>
         forall h :: Safe(ok, h, vm.(placement := Some(h))) && Safe(err, host, vm.(placement := Some(h))))
    case Create(ok, failed, unknown) =>
      var there := vm.(live := vm.live + {host});
      Safe(ok, host, there) && Safe(failed, host, vm) && Safe(unknown, host, there) && AsksNoAgent(unknown)
    case WaitReady(ok, err) => Safe(ok, host, vm) && Safe(err, host, vm)
    case Destroy(ok, err) =>
      var gone := vm.(live := vm.live - {host});
      Safe(ok, host, gone) && Safe(err, host, vm) && Safe(err, host, gone)
    case Health(gone, ready, notReady, err) =>
      Safe(gone, host, vm.(live := vm.live - {host}))
      && Safe(ready, host, vm) && Safe(notReady, host, vm) && Safe(err, host, vm)
    case Pair(gone, other) =>
      Safe(gone, host, vm.(live := vm.live - {host})) && Safe(other, host, vm)
  }

  /** The VM with every unresolved create counted as landed. */
  function Landed(vm: Vm): Vm {
    vm.(live := Maybe(vm), pending := {})
  }

  /** Fewer places to run never make a program less safe. */
  lemma {:induction false} FewerPlacesStaySafe(p: Program, host: HostId, vm: Vm, fewer: set<HostId>)
    requires Safe(p, host, vm) && fewer <= vm.live
    ensures Safe(p, host, vm.(live := fewer))
    decreases p
  {
    var less := vm.(live := fewer);
    match p
    case Done =>
    case Store(call, ok, err) =>
      assert StoreEffect(call, host, less) == StoreEffect(call, host, vm).(live := fewer);
      FewerPlacesStaySafe(ok, host, StoreEffect(call, host, vm), fewer);
      FewerPlacesStaySafe(err, host, vm, fewer);
    case LookupHost(ok, err) =>
      FewerPlacesStaySafe(ok, host, vm, fewer);
      FewerPlacesStaySafe(err, host, vm, fewer);
    case Reserve(ok, err) =>
      FewerPlacesStaySafe(err, host, vm, fewer);
      if vm.placement.None? {
        forall h
          ensures Safe(ok, h, less.(placement := Some(h))) && Safe(err, host, less.(placement := Some(h)))
        {
          var held := vm.(placement := Some(h));
          FewerPlacesStaySafe(ok, h, held, fewer);
          FewerPlacesStaySafe(err, host, held, fewer);
          assert held.(live := fewer) == less.(placement := Some(h));
        }
      }
    case Create(ok, failed, unknown) =>
      var there := vm.(live := vm.live + {host});
      FewerPlacesStaySafe(ok, host, there, fewer + {host});
      FewerPlacesStaySafe(failed, host, vm, fewer);
      FewerPlacesStaySafe(unknown, host, there, fewer + {host});
    case WaitReady(ok, err) =>
      FewerPlacesStaySafe(ok, host, vm, fewer);
      FewerPlacesStaySafe(err, host, vm, fewer);
    case Destroy(ok, err) =>
      var gone := vm.(live := vm.live - {host});
      FewerPlacesStaySafe(ok, host, gone, fewer - {host});
      FewerPlacesStaySafe(err, host, vm, fewer);
      FewerPlacesStaySafe(err, host, gone, fewer - {host});
    case Health(gone, ready, notReady, err) =>
      FewerPlacesStaySafe(gone, host, vm.(live := vm.live - {host}), fewer - {host});
      FewerPlacesStaySafe(ready, host, vm, fewer);
      FewerPlacesStaySafe(notReady, host, vm, fewer);
      FewerPlacesStaySafe(err, host, vm, fewer);
    case Pair(gone, other) =>
      FewerPlacesStaySafe(gone, host, vm.(live := vm.live - {host}), fewer - {host});
      FewerPlacesStaySafe(other, host, vm, fewer);
  }

  predicate CreatesNothing(p: Program) {
    match p
    case Done => true
    case Store(_, ok, err) => CreatesNothing(ok) && CreatesNothing(err)
    case LookupHost(ok, err) => CreatesNothing(ok) && CreatesNothing(err)
    case Reserve(ok, err) => CreatesNothing(ok) && CreatesNothing(err)
    case Create(_, _, _) => false
    case WaitReady(ok, err) => CreatesNothing(ok) && CreatesNothing(err)
    case Destroy(ok, err) => CreatesNothing(ok) && CreatesNothing(err)
    case Health(gone, ready, notReady, err) =>
      CreatesNothing(gone) && CreatesNothing(ready) && CreatesNothing(notReady) && CreatesNothing(err)
    case Pair(gone, other) => CreatesNothing(gone) && CreatesNothing(other)
  }

  /** When nothing runs anywhere, any program that creates nothing is safe. */
  lemma {:induction false} SafeWhenDead(p: Program, host: HostId, vm: Vm)
    requires Maybe(vm) == {} && CreatesNothing(p)
    ensures Safe(p, host, vm)
    decreases p
  {
    assert vm.live == {} && vm.pending == {} by {
      assert vm.live <= Maybe(vm) && vm.pending <= Maybe(vm);
    }
    match p
    case Done =>
    case Store(call, ok, err) =>
      SafeWhenDead(ok, host, StoreEffect(call, host, vm));
      SafeWhenDead(err, host, vm);
    case LookupHost(ok, err) =>
      SafeWhenDead(ok, host, vm);
      SafeWhenDead(err, host, vm);
    case Reserve(ok, err) =>
      SafeWhenDead(err, host, vm);
      forall h
        ensures Safe(ok, h, vm.(placement := Some(h))) && Safe(err, host, vm.(placement := Some(h)))
      {
        SafeWhenDead(ok, h, vm.(placement := Some(h)));
        SafeWhenDead(err, host, vm.(placement := Some(h)));
      }
    case WaitReady(ok, err) =>
      SafeWhenDead(ok, host, vm);
      SafeWhenDead(err, host, vm);
    case Destroy(ok, err) =>
      SafeWhenDead(ok, host, vm.(live := vm.live - {host}));
      SafeWhenDead(err, host, vm.(live := vm.live - {host}));
      SafeWhenDead(err, host, vm);
    case Health(gone, ready, notReady, err) =>
      SafeWhenDead(gone, host, vm.(live := vm.live - {host}));
      SafeWhenDead(ready, host, vm);
      SafeWhenDead(notReady, host, vm);
      SafeWhenDead(err, host, vm);
    case Pair(gone, other) =>
      SafeWhenDead(gone, host, vm.(live := vm.live - {host}));
      SafeWhenDead(other, host, vm);
  }

  predicate Gentle(call: StoreCall) {
    call.Activate? || (call.SetStatus? && !call.status.Stopped?)
  }

  /** Marking a covered VM as running or failed keeps it covered. */
  lemma {:induction false} SafeWhenGentle(calls: seq<StoreCall>, host: HostId, vm: Vm)
    requires Covered(vm) && vm.pending == {} && forall c :: c in calls ==> Gentle(c)
    ensures Safe(BestEffort(calls), host, vm)
  {
    if calls != [] {
      assert Gentle(calls[0]);
      var marked := StoreEffect(calls[0], host, vm);
      assert Maybe(marked) == Maybe(vm);
      SafeWhenGentle(calls[1..], host, marked);
      SafeWhenGentle(calls[1..], host, vm);
    }
  }

  lemma {:induction false} StoreCallsCreateNothing(calls: seq<StoreCall>, next: Program)
    requires CreatesNothing(next)
    ensures CreatesNothing(Then(calls, next))
  {
    if calls != [] {
      StoreCallsCreateNothing(calls[1..], next);
    }
  }

  /** A covered VM can only run on the host its record names. */
  lemma OnlyOnRecordedHost(vm: Vm, host: HostId)
    requires Covered(vm) && vm.pending == {} && vm.record.Some? && vm.record.value.host == Some(host)
    ensures Maybe(vm.(live := vm.live - {host})) == {}
  {
    forall h | h in vm.live
      ensures h == host
    {
      assert h in Maybe(vm);
    }
  }

  lemma NowhereWithoutHost(vm: Vm)
    requires Covered(vm) && (vm.record.None? || !MayExistOnAgent(vm.record.value))
    ensures Maybe(vm) == {}
  {
    if h :| h in Maybe(vm) {
      assert false;
    }
  }

  lemma StartIsSafe(vm: Vm, host: HostId)
    requires Covered(vm) && vm.pending == {} && vm.record.Some? && Enabled(HStart, vm.record.value)
    ensures Safe(StartProgram, host, vm)
  {
    NowhereWithoutHost(vm);
    assert vm.live == {};
    var provisioning := StoreEffect(SetStatus(Provisioning), host, vm);
    SafeWhenGentle([SetStatus(Error)], host, provisioning);
    if vm.placement.None? {
      forall h
        ensures Safe(AssignAndCreate, h, provisioning.(placement := Some(h)))
        ensures Safe(KeepAsError, host, provisioning.(placement := Some(h)))
      {
        var held := provisioning.(placement := Some(h));
        SafeWhenGentle([SetStatus(Error)], host, held);
        AssignAndCreateAreSafe(held, h);
      }
    }
  }

  lemma AssignAndCreateAreSafe(held: Vm, h: HostId)
    requires held.record.Some? && held.record.value.status == Provisioning && held.placement == Some(h)
    requires Maybe(held) == {} && held.pending == {}
    ensures Safe(AssignAndCreate, h, held)
  {
    StoreCallsCreateNothing([SetStatus(Error), Release], Done);
    SafeWhenDead(AbandonAssign, h, held);
    CreateIsSafe(StoreEffect(Assign, h, held), h);
  }

  lemma CreateIsSafe(onHost: Vm, h: HostId)
    requires onHost.record == Some(Record(Provisioning, Some(h))) && onHost.placement == Some(h)
    requires Maybe(onHost) == {} && onHost.pending == {}
    ensures Safe(CreateAndWait, h, onHost)
  {
    StoreCallsCreateNothing([SetStatus(Error), Release, Unassign], Done);
    SafeWhenDead(AbandonCreate, h, onHost);
    var there := onHost.(live := onHost.live + {h});
    assert Covered(there);
    SafeWhenGentle([SetStatus(Error)], h, there);
    SafeWhenGentle([Activate, SetStatus(Running)], h, there);
    assert AsksNoAgent(KeepAsError);
  }

  lemma StopIsSafe(vm: Vm, host: HostId)
    requires Covered(vm) && vm.pending == {} && vm.record.Some?
    requires vm.record.value.host.Some? ==> vm.record.value.host.value == host
    ensures Safe(StopProgram(vm.record.value), host, vm)
  {
    StoreCallsCreateNothing([Release, Unassign, SetStatus(Stopped)], Done);
    if vm.record.value.host.Some? {
      OnlyOnRecordedHost(vm, host);
      SafeWhenDead(FinishStop, host, vm.(live := vm.live - {host}));
      KeepAsErrorIsSafe(vm, host);
    } else {
      NowhereWithoutHost(vm);
      SafeWhenDead(FinishStop, host, vm);
    }
  }

  lemma KeepAsErrorIsSafe(vm: Vm, host: HostId)
    requires Covered(vm) && vm.pending == {}
    ensures Safe(KeepAsError, host, vm) && Safe(KeepAsError, host, vm.(live := vm.live - {host}))
  {
    SafeWhenGentle([SetStatus(Error)], host, vm);
    FewerPlacesStaySafe(KeepAsError, host, vm, vm.live - {host});
  }

  lemma DeleteIsSafe(vm: Vm, host: HostId)
    requires Covered(vm) && vm.pending == {} && vm.record.Some?
    requires vm.record.value.host.Some? ==> vm.record.value.host.value == host
    ensures Safe(DeleteProgram(vm.record.value), host, vm)
  {
    StoreCallsCreateNothing([Release, Unassign], DropRecord);
    if MayExistOnAgent(vm.record.value) {
      OnlyOnRecordedHost(vm, host);
      SafeWhenDead(Then([Release, Unassign], DropRecord), host, vm.(live := vm.live - {host}));
      KeepAsErrorIsSafe(vm, host);
    } else {
      NowhereWithoutHost(vm);
      SafeWhenDead(DropRecord, host, vm);
    }
  }

  lemma ReconcileIsSafe(vm: Vm, host: HostId)
    requires Covered(vm) && vm.pending == {} && vm.record.Some? && vm.record.value.host == Some(host)
    ensures Safe(ReconcileProgram, host, vm)
  {
    OnlyOnRecordedHost(vm, host);
    SafeWhenDead(ReleaseAbsent, host, vm.(live := vm.live - {host}));
    KeepAsErrorIsSafe(vm, host);
    var running := StoreEffect(SetStatus(Running), host, vm);
    assert Covered(running);
  }

  lemma HeartbeatIsSafe(vm: Vm, host: HostId)
    requires Covered(vm) && vm.pending == {} && vm.record.Some? && vm.record.value.host == Some(host)
    ensures Safe(HeartbeatProgram, host, vm)
  {
    OnlyOnRecordedHost(vm, host);
    StoreCallsCreateNothing([SetStatus(Error), Unassign, Release], Done);
    SafeWhenDead(HeartbeatProgram.gone, host, vm.(live := vm.live - {host}));
  }

  /** The host a handler starts with: the one on the record it has read. */
  function FirstHost(r: Record): HostId {
    if r.host.Some? then r.host.value else 0
  }

  /** Every handler is safe from every covered state without unresolved creates. */
  lemma HandlersAreSafe(handler: Handler, vm: Vm)
    requires Covered(vm) && vm.pending == {} && vm.record.Some? && Enabled(handler, vm.record.value)
    ensures Safe(ProgramOf(handler, vm.record.value), FirstHost(vm.record.value), vm)
  {
    var host := FirstHost(vm.record.value);
    match handler
    case HStart => StartIsSafe(vm, host);
    case HStop => StopIsSafe(vm, host);
    case HDelete => DeleteIsSafe(vm, host);
    case HReconcile => ReconcileIsSafe(vm, host);
    case HHeartbeat => HeartbeatIsSafe(vm, host);
  }
}
