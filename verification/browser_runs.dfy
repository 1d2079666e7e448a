/** The handlers as written are runs of the fleet, and what goes wrong when a handler does not wait. */
module BrowserRuns {
  import opened Common
  import opened BrowserVm
  import opened BrowserFleet
  import opened BrowserHandlers

  /** The world after one call of the handler on `b`. */
  function Stepped(w: World, b: VmId, f: Fate): World
    requires b in w.vms && b in w.tasks
  {
    var t := w.tasks[b];
    AfterCall(w, b, t.program, t.host, f).(
      tasks := w.tasks[b := Task(Next(t.program, f), NextHost(t.program, t.host, f))])
  }

  predicate SameTables(w: World, u: World) {
    w.vms == u.vms && w.hosts == u.hosts
  }

  ghost predicate StepByStep(ws: seq<World>) {
    forall i :: 0 <= i < |ws| - 1 ==> StepAt(ws, i)
  }

  lemma OneStepEarlier(w: World, ws: seq<World>)
    requires ws != [] && StepByStep(ws) && Step(w, ws[0])
    ensures StepByStep([w] + ws) && Last([w] + ws) == Last(ws)
  {
    var path := [w] + ws;
    forall i | 0 <= i < |path| - 1
      ensures StepAt(path, i)
    {
      if i > 0 {
        assert StepAt(ws, i - 1) && path[i] == ws[i - 1] && path[i + 1] == ws[i];
      }
    }
  }

  ghost predicate OnlyTaskOf(b: VmId, before: map<VmId, Task>, after: map<VmId, Task>) {
    before.Keys == after.Keys && forall c :: c in before && c != b ==> after[c] == before[c]
  }

  lemma OneCall(w: World, u: World, b: VmId, fates: seq<Fate>) returns (w': World, u': World)
    requires Inv(w) && b in w.vms && SameTables(w, u) && w.tasks[b].program != Done
    ensures Step(w, w') && Inv(w') && b in w'.vms && SameTables(w', u')
    ensures w'.tasks[b].program < w.tasks[b].program && OnlyTaskOf(b, w.tasks, w'.tasks)
    ensures Outcome(u, b, w.tasks[b].program, w.tasks[b].host, fates)
            == Outcome(u', b, w'.tasks[b].program, w'.tasks[b].host, Rest(fates))
  {
    var t := w.tasks[b];
    var f := Actual(u, b, t.program, t.host, fates);
    w', u' := Stepped(w, b, f), AfterCall(u, b, t.program, t.host, f);
    assert CallStep(w, w', b, f);
    CallKeepsInv(w, w', b, f);
    NextIsSmaller(t.program, f);
  }

  /** What a handler computes from the tables alone, `Outcome`, is reached call by call in the fleet,
      and the fleet's invariant holds where it ends. */
  lemma {:induction false} OutcomeIsReached(w: World, u: World, b: VmId, fates: seq<Fate>)
    returns (path: seq<World>, end: World)
    requires Inv(w) && b in w.vms && SameTables(w, u)
    ensures StepByStep(path) && path != [] && path[0] == w && Last(path) == end
    ensures SameTables(end, Outcome(u, b, w.tasks[b].program, w.tasks[b].host, fates)) && Inv(end)
    ensures b in end.tasks && end.tasks[b].program == Done && OnlyTaskOf(b, w.tasks, end.tasks)
    decreases w.tasks[b].program
  {
    if w.tasks[b].program == Done {
      path, end := [w], w;
    } else {
      var w', u' := OneCall(w, u, b, fates);
      path, end := OutcomeIsReached(w', u', b, Rest(fates));
      OneStepEarlier(w, path);
      path := [w] + path;
    }
  }

  /** The tables a handler leaves, when its calls end as `fates` says. */
  function AfterHandler(w: World, b: VmId, handler: Handler, fates: seq<Fate>): World
    requires b in w.vms && w.vms[b].record.Some?
  {
    var r := w.vms[b].record.value;
    Outcome(w.(tasks := map[]), b, ProgramOf(handler, r), FirstHost(r), fates)
  }

  /** A whole handler, from the tables as a handler method finds them: a covered fleet stays covered and balanced. */
  lemma HandlerKeepsInv(w: World, b: VmId, handler: Handler, fates: seq<Fate>) returns (w': World)
    requires Inv(w) && b in w.vms && w.tasks[b].program == Done
    requires w.vms[b].pending == {} && w.vms[b].record.Some? && Enabled(handler, w.vms[b].record.value)
    ensures SameTables(w', AfterHandler(w, b, handler, fates)) && Inv(w') && b in w'.vms && Covered(w'.vms[b])
  {
    var r := w.vms[b].record.value;
    var started := w.(tasks := w.tasks[b := Task(ProgramOf(handler, r), FirstHost(r))]);
    StartKeepsInv(w, started, b, handler);
    var path;
    path, w' := OutcomeIsReached(started, w.(tasks := map[]), b, fates);
    SafeIsCovered(w'.vms[b], w'.tasks[b]);
  }

  // ---- Why a handler must wait for an unresolved create ----

  /** The program's calls, ending as `fates` says, lead from `vm` to `after`. */
  ghost predicate Leads(p: Program, host: HostId, vm: Vm, fates: seq<Fate>, after: Vm)
    decreases |fates|
  {
    if fates == [] then p.Done? && vm == after
    else
      Possible(p, host, vm, fates[0])
      && Leads(Next(p, fates[0]), NextHost(p, host, fates[0]), CallEffect(p, host, vm, fates[0]), fates[1..], after)
  }

  /** A start whose create is unresolved leaves a record that covers the host. */
  lemma UnknownCreate(size: Size, h: HostId)
    ensures Leads(StartProgram, 0, Vm(size, Some(Record(Stopped, None)), None, {}, {}),
                  [Succeeds, OnHost(h), Succeeds, Unknown, Succeeds],
                  Vm(size, Some(Record(Error, Some(h))), Some(h), {}, {h}))
  {
    var vm0 := Vm(size, Some(Record(Stopped, None)), None, {}, {});
    var after := Vm(size, Some(Record(Error, Some(h))), Some(h), {}, {h});
    var vm1 := vm0.(record := Some(Record(Provisioning, None)));
    var vm2 := vm1.(placement := Some(h));
    var vm3 := vm2.(record := Some(Record(Provisioning, Some(h))));
    var vm4 := vm3.(pending := {h});
    assert Leads(KeepAsError, h, vm4, [Succeeds], after) by {
      assert [Succeeds][1..] == [];
    }
    assert [Unknown, Succeeds][1..] == [Succeeds];
    assert Leads(CreateAndWait, h, vm3, [Unknown, Succeeds], after);
    assert [Succeeds, Unknown, Succeeds][1..] == [Unknown, Succeeds];
    assert Leads(AssignAndCreate, h, vm2, [Succeeds, Unknown, Succeeds], after);
    assert [OnHost(h), Succeeds, Unknown, Succeeds][1..] == [Succeeds, Unknown, Succeeds];
    assert Leads(StartProgram.ok, 0, vm1, [OnHost(h), Succeeds, Unknown, Succeeds], after);
    assert [Succeeds, OnHost(h), Succeeds, Unknown, Succeeds][1..] == [OnHost(h), Succeeds, Unknown, Succeeds];
  }

  /** A stop at that moment is enabled, finds no VM to destroy, succeeds throughout, and forgets the host;
      the create that lands afterwards runs uncovered. */
  lemma StopDuringUnknownCreateOrphans(size: Size, h: HostId)
    ensures var unresolved := Vm(size, Some(Record(Error, Some(h))), Some(h), {}, {h});
            var stopped := Vm(size, Some(Record(Stopped, None)), None, {}, {h});
            && Enabled(HStop, unresolved.record.value)
            && Leads(StopProgram(unresolved.record.value), h, unresolved, [Succeeds, Succeeds, Succeeds, Succeeds, Succeeds], stopped)
            && !Covered(Landed(stopped))
  {
    var vm0 := Vm(size, Some(Record(Error, Some(h))), Some(h), {}, {h});
    var vm2 := vm0.(placement := None);
    var vm3 := vm2.(record := Some(Record(Error, None)));
    var stopped := vm3.(record := Some(Record(Stopped, None)));
    assert vm0.live - {h} == {};
    assert [Succeeds][1..] == [];
    assert Leads(BestEffort([SetStatus(Stopped)]), h, vm3, [Succeeds], stopped);
    assert [Succeeds, Succeeds][1..] == [Succeeds];
    assert Leads(BestEffort([Unassign, SetStatus(Stopped)]), h, vm2, [Succeeds, Succeeds], stopped);
    assert [Succeeds, Succeeds, Succeeds][1..] == [Succeeds, Succeeds];
    assert Leads(FinishStop, h, vm0, [Succeeds, Succeeds, Succeeds], stopped);
    assert [Succeeds, Succeeds, Succeeds, Succeeds][1..] == [Succeeds, Succeeds, Succeeds];
    assert Leads(Destroy(FinishStop, KeepAsError), h, vm0, [Succeeds, Succeeds, Succeeds, Succeeds], stopped);
    assert [Succeeds, Succeeds, Succeeds, Succeeds, Succeeds][1..] == [Succeeds, Succeeds, Succeeds, Succeeds];
    assert h in Maybe(Landed(stopped));
  }

  /** What can happen to a VM between two calls: it dies, and creates that were on their way land or vanish. */
  predicate Drifts(vm: Vm, later: Vm) {
    && later == vm.(live := later.live, pending := later.pending)
    && later.pending <= vm.pending && later.live <= vm.live + (vm.pending - later.pending)
  }

  /** A call, and the VM as it finds it. */
  datatype Call = Call(met: Vm, fate: Fate)

  /** The program makes these calls, one after the other, and is left with `rest` to do, the VM being `after`. */
  ghost predicate Reaches(p: Program, host: HostId, vm: Vm, calls: seq<Call>, rest: Program, after: Vm)
    decreases |calls|
  {
    if calls == [] then p == rest && Drifts(vm, after)
    else
      var c := calls[0];
      && Drifts(vm, c.met) && Possible(p, host, c.met, c.fate)
      && Reaches(Next(p, c.fate), NextHost(p, host, c.fate), CallEffect(p, host, c.met, c.fate), calls[1..], rest, after)
  }

  /** Wherever the handler is stopped or ends, whatever its calls came to, the VM is covered. */
  ghost predicate KeepsCovered(handler: Handler, vm: Vm)
    requires vm.record.Some?
  {
    var r := vm.record.value;
    forall calls, rest, after :: Reaches(ProgramOf(handler, r), FirstHost(r), vm, calls, rest, after) ==> Covered(after)
  }

  lemma DriftKeepsVmSafe(vm: Vm, later: Vm, t: Task)
    requires SafeVm(vm, t) && Drifts(vm, later)
    ensures SafeVm(later, t)
  {
    FewerPlacesStaySafe(t.program, t.host, Landed(vm), Maybe(later));
    assert Landed(later) == Landed(vm).(live := Maybe(later));
    assert later.pending != {} ==> vm.pending != {};
  }

  lemma {:induction false} ReachesSafely(p: Program, host: HostId, vm: Vm, calls: seq<Call>, rest: Program, after: Vm)
    requires SafeVm(vm, Task(p, host)) && Reaches(p, host, vm, calls, rest, after)
    ensures Covered(after)
    decreases |calls|
  {
    if calls == [] {
      DriftKeepsVmSafe(vm, after, Task(p, host));
      SafeIsCovered(after, Task(p, host));
    } else {
      var c := calls[0];
      DriftKeepsVmSafe(vm, c.met, Task(p, host));
      CallKeepsVmSafe(c.met, Task(p, host), c.fate);
      ReachesSafely(Next(p, c.fate), NextHost(p, host, c.fate), CallEffect(p, host, c.met, c.fate), calls[1..], rest, after);
    }
  }

  lemma CallFirst(p: Program, host: HostId, vm: Vm, c: Call, calls: seq<Call>, rest: Program, after: Vm)
    returns (all: seq<Call>)
    requires Drifts(vm, c.met) && Possible(p, host, c.met, c.fate)
    requires Reaches(Next(p, c.fate), NextHost(p, host, c.fate), CallEffect(p, host, c.met, c.fate), calls, rest, after)
    ensures Reaches(p, host, vm, all, rest, after)
  {
    all := [c] + calls;
    assert all[1..] == calls;
  }

  function Effects(stores: seq<StoreCall>, host: HostId, vm: Vm): Vm
    decreases |stores|
  {
    if stores == [] then vm else Effects(stores[1..], host, StoreEffect(stores[0], host, vm))
  }

  /** Store calls that all succeed. */
  lemma {:induction false} StoresSucceed(stores: seq<StoreCall>, host: HostId, vm: Vm) returns (calls: seq<Call>)
    ensures Reaches(BestEffort(stores), host, vm, calls, Done, Effects(stores, host, vm))
    decreases |stores|
  {
    if stores == [] {
      calls := [];
    } else {
      var done := StoreEffect(stores[0], host, vm);
      calls := StoresSucceed(stores[1..], host, done);
      calls := CallFirst(BestEffort(stores), host, vm, Call(vm, Succeeds), calls, Done, Effects(stores, host, vm));
    }
  }

  lemma StopOrphans(vm: Vm) returns (calls: seq<Call>, after: Vm)
    requires Covered(vm) && vm.pending != {} && vm.record.Some? && vm.record.value.host.Some?
    ensures Reaches(StopProgram(vm.record.value), FirstHost(vm.record.value), vm, calls, Done, after)
    ensures after.pending == vm.pending && after.record.Some? && after.record.value.host.None?
  {
    var r := vm.record.value;
    var h := r.host.value;
    var gone := vm.(live := vm.live - {h});
    var stores := [Release, Unassign, SetStatus(Stopped)];
    calls := StoresSucceed(stores, h, gone);
    after := Effects(stores, h, gone);
    ThreeEffects(stores, h, gone);
    calls := CallFirst(StopProgram(r).ok, h, vm, Call(vm, Succeeds), calls, Done, after);
    calls := CallFirst(StopProgram(r), h, vm, Call(vm, Succeeds), calls, Done, after);
  }

  lemma ThreeEffects(stores: seq<StoreCall>, host: HostId, vm: Vm)
    requires |stores| == 3
    ensures Effects(stores, host, vm)
            == StoreEffect(stores[2], host, StoreEffect(stores[1], host, StoreEffect(stores[0], host, vm)))
  {
    var one := StoreEffect(stores[0], host, vm);
    var two := StoreEffect(stores[1], host, one);
    assert stores[2..][1..] == [] && stores[1..][1..] == stores[2..];
    assert Effects(stores[2..], host, two) == StoreEffect(stores[2], host, two);
    assert Effects(stores[1..], host, one) == Effects(stores[2..], host, two);
  }

  lemma DeleteOrphans(vm: Vm) returns (calls: seq<Call>, after: Vm)
    requires Covered(vm) && vm.pending != {} && vm.record.Some? && MayExistOnAgent(vm.record.value)
    ensures Reaches(DeleteProgram(vm.record.value), FirstHost(vm.record.value), vm, calls, Done, after)
    ensures after.pending == vm.pending && after.record.None?
  {
    var r := vm.record.value;
    var h := r.host.value;
    var gone := vm.(live := vm.live - {h});
    var stores := [Release, Unassign, DeleteRecord];
    calls := StoresSucceed(stores, h, gone);
    after := Effects(stores, h, gone);
    ThreeEffects(stores, h, gone);
    assert BestEffort(stores) == ReleaseThenDrop by {
      assert stores[1..] == [Unassign, DeleteRecord] && stores[1..][1..] == [DeleteRecord] && stores[1..][1..][1..] == [];
      assert [Release, Unassign][1..] == [Unassign] && [Unassign][1..] == [];
    }
    calls := CallFirst(DeleteProgram(r).ok, h, vm, Call(vm, Succeeds), calls, Done, after);
    calls := CallFirst(DeleteProgram(r), h, vm, Call(vm, Succeeds), calls, Done, after);
  }

  lemma ReconcileOrphans(vm: Vm) returns (calls: seq<Call>, after: Vm)
    requires Covered(vm) && vm.pending != {} && vm.record.Some? && vm.record.value.host.Some?
    ensures Reaches(ReconcileProgram, FirstHost(vm.record.value), vm, calls, Done, after)
    ensures after.pending == vm.pending && after.record.Some? && after.record.value.host.None?
  {
    var h := vm.record.value.host.value;
    var gone := vm.(live := {});
    var released := gone.(placement := None);
    var off := released.(record := WithHost(released.record, None));
    after := off.(record := WithStatus(off.record, Stopped));
    calls := CallFirst(ReleaseAbsent.ok.ok, h, off, Call(off, Succeeds), [], Done, after);
    calls := CallFirst(ReleaseAbsent.ok, h, released, Call(released, Succeeds), calls, Done, after);
    calls := CallFirst(ReleaseAbsent, h, gone, Call(gone, Succeeds), calls, Done, after);
    calls := CallFirst(ReconcileProgram.ok, h, gone, Call(gone, AgentSaysGone), calls, Done, after);
    calls := CallFirst(ReconcileProgram, h, vm, Call(gone, Succeeds), calls, Done, after);
  }

  lemma HeartbeatOrphans(vm: Vm) returns (calls: seq<Call>, after: Vm)
    requires Covered(vm) && vm.pending != {} && vm.record.Some? && vm.record.value.host.Some?
    ensures Reaches(HeartbeatProgram, FirstHost(vm.record.value), vm, calls, Done, after)
    ensures after.pending == vm.pending && after.record.Some? && after.record.value.host.None?
  {
    var h := vm.record.value.host.value;
    var gone := vm.(live := {});
    var stores := [SetStatus(Error), Unassign, Release];
    calls := StoresSucceed(stores, h, gone);
    after := Effects(stores, h, gone);
    ThreeEffects(stores, h, gone);
    calls := CallFirst(HeartbeatProgram, h, vm, Call(gone, AgentSaysGone), calls, Done, after);
  }

  /** Every handler that may run while a create is unresolved can complete, each of its calls answered truthfully,
      and leave the VM uncovered when the create lands. */
  lemma NotWaitingOrphans(handler: Handler, vm: Vm) returns (calls: seq<Call>, after: Vm)
    requires Covered(vm) && vm.record.Some? && Enabled(handler, vm.record.value) && vm.pending != {}
    ensures Reaches(ProgramOf(handler, vm.record.value), FirstHost(vm.record.value), vm, calls, Done, after)
    ensures !Covered(after) && handler != HStart
  {
    var h :| h in vm.pending;
    assert h in Maybe(vm);
    match handler {
      case HStart =>
      case HStop => calls, after := StopOrphans(vm);
      case HDelete => calls, after := DeleteOrphans(vm);
      case HReconcile => calls, after := ReconcileOrphans(vm);
      case HHeartbeat => calls, after := HeartbeatOrphans(vm);
    }
    assert handler != HStart ==> h in Maybe(after);
  }

  /** For every handler and every covered VM it may run on: it keeps the VM covered, wherever it is stopped and however
      its calls end, if and only if no create of the VM is unresolved when it starts. */
  lemma WaitIsExactlyNeeded(handler: Handler, vm: Vm)
    requires Covered(vm) && vm.record.Some? && Enabled(handler, vm.record.value)
    ensures KeepsCovered(handler, vm) <==> vm.pending == {}
  {
    var r := vm.record.value;
    if vm.pending == {} {
      HandlersAreSafe(handler, vm);
      assert Landed(vm) == vm;
      forall calls, rest, after | Reaches(ProgramOf(handler, r), FirstHost(r), vm, calls, rest, after)
        ensures Covered(after)
      {
        ReachesSafely(ProgramOf(handler, r), FirstHost(r), vm, calls, rest, after);
      }
    } else {
      var calls, after := NotWaitingOrphans(handler, vm);
    }
  }
}
