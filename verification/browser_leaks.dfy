/** Exactly when a handler can leave a host's counters short: only a delete can, and only over a placement that is
    still held when it starts. */
module BrowserLeaks {
  import opened Common
  import opened BrowserVm
  import opened BrowserFleet
  import opened BrowserRuns

  /** The call drops the record, and the held placement with it, without a release. */
  predicate DropsPlacement(p: Program, host: HostId, vm: Vm, f: Fate) {
    vm.placement.Some? && CallEffect(p, host, vm, f).placement.None? && CallEffect(p, host, vm, f).record.None?
  }

  /** The program makes these calls, one after the other, and the last of them drops a held placement. */
  ghost predicate Leaks(p: Program, host: HostId, vm: Vm, calls: seq<Call>)
    decreases |calls|
  {
    calls != [] &&
    var c := calls[0];
    && Drifts(vm, c.met) && Possible(p, host, c.met, c.fate)
    && if |calls| == 1 then DropsPlacement(p, host, c.met, c.fate)
       else Leaks(Next(p, c.fate), NextHost(p, host, c.fate), CallEffect(p, host, c.met, c.fate), calls[1..])
  }

  ghost predicate MayLeak(handler: Handler, vm: Vm)
    requires vm.record.Some?
  {
    exists calls :: Leaks(ProgramOf(handler, vm.record.value), FirstHost(vm.record.value), vm, calls)
  }

  // ---- Who never leaks ----

  predicate KeepsRecord(p: Program) {
    match p
    case Done => true
    case Store(call, ok, err) => !call.DeleteRecord? && KeepsRecord(ok) && KeepsRecord(err)
    case LookupHost(ok, err) => KeepsRecord(ok) && KeepsRecord(err)
    case Reserve(ok, err) => KeepsRecord(ok) && KeepsRecord(err)
    case Create(ok, failed, unknown) => KeepsRecord(ok) && KeepsRecord(failed) && KeepsRecord(unknown)
    case WaitReady(ok, err) => KeepsRecord(ok) && KeepsRecord(err)
    case Destroy(ok, err) => KeepsRecord(ok) && KeepsRecord(err)
    case Health(gone, ready, notReady, err) =>
      KeepsRecord(gone) && KeepsRecord(ready) && KeepsRecord(notReady) && KeepsRecord(err)
    case Pair(gone, other) => KeepsRecord(gone) && KeepsRecord(other)
  }

  predicate ReservesNothing(p: Program) {
    match p
    case Done => true
    case Store(_, ok, err) => ReservesNothing(ok) && ReservesNothing(err)
    case LookupHost(ok, err) => ReservesNothing(ok) && ReservesNothing(err)
    case Reserve(_, _) => false
    case Create(ok, failed, unknown) => ReservesNothing(ok) && ReservesNothing(failed) && ReservesNothing(unknown)
    case WaitReady(ok, err) => ReservesNothing(ok) && ReservesNothing(err)
    case Destroy(ok, err) => ReservesNothing(ok) && ReservesNothing(err)
    case Health(gone, ready, notReady, err) =>
      ReservesNothing(gone) && ReservesNothing(ready) && ReservesNothing(notReady) && ReservesNothing(err)
    case Pair(gone, other) => ReservesNothing(gone) && ReservesNothing(other)
  }

  lemma {:induction false} NoLeakWithTheRecord(p: Program, host: HostId, vm: Vm, calls: seq<Call>)
    requires KeepsRecord(p) && vm.record.Some?
    ensures !Leaks(p, host, vm, calls)
    decreases |calls|
  {
    if calls != [] {
      var c := calls[0];
      if Drifts(vm, c.met) && Possible(p, host, c.met, c.fate) {
        NoLeakWithTheRecord(Next(p, c.fate), NextHost(p, host, c.fate), CallEffect(p, host, c.met, c.fate), calls[1..]);
      }
    }
  }

  lemma {:induction false} NoLeakWithoutPlacement(p: Program, host: HostId, vm: Vm, calls: seq<Call>)
    requires ReservesNothing(p) && vm.placement.None?
    ensures !Leaks(p, host, vm, calls)
    decreases |calls|
  {
    if calls != [] {
      var c := calls[0];
      if Drifts(vm, c.met) && Possible(p, host, c.met, c.fate) {
        NoLeakWithoutPlacement(Next(p, c.fate), NextHost(p, host, c.fate), CallEffect(p, host, c.met, c.fate), calls[1..]);
      }
    }
  }

  lemma {:induction false} StoreCallsKeepRecord(stores: seq<StoreCall>)
    requires DeleteRecord !in stores
    ensures KeepsRecord(BestEffort(stores))
  {
    if stores != [] {
      assert stores[0] in stores;
      StoreCallsKeepRecord(stores[1..]);
    }
  }

  lemma OnlyDeleteDropsRecords(handler: Handler, r: Record)
    requires handler != HDelete
    ensures KeepsRecord(ProgramOf(handler, r))
  {
    match handler
    case HStart =>
      StoreCallsKeepRecord([SetStatus(Error)]);
      StoreCallsKeepRecord([Activate, SetStatus(Running)]);
      StoreCallsKeepRecord([SetStatus(Error), Release, Unassign]);
      StoreCallsKeepRecord([SetStatus(Error), Release]);
    case HStop =>
      StoreCallsKeepRecord([SetStatus(Error)]);
      StoreCallsKeepRecord([Release, Unassign, SetStatus(Stopped)]);
    case HReconcile =>
      StoreCallsKeepRecord([SetStatus(Error)]);
    case HHeartbeat =>
      StoreCallsKeepRecord([SetStatus(Error), Unassign, Release]);
  }

  /** `ReleaseThenDrop` call by call. */
  lemma ReleaseThenDropIs()
    ensures var drop := Store(Unassign, DropRecord, DropRecord);
            ReleaseThenDrop == Store(Release, drop, drop)
    ensures ReservesNothing(ReleaseThenDrop)
  {
    assert [Release, Unassign][1..] == [Unassign] && [Unassign][1..] == [];
    assert Then([Unassign], DropRecord) == Store(Unassign, DropRecord, DropRecord);
  }

  lemma DeleteReservesNothing(r: Record)
    ensures ReservesNothing(DeleteProgram(r))
  {
    ReleaseThenDropIs();
    assert KeepAsError == Store(SetStatus(Error), Done, Done) by {
      assert [SetStatus(Error)][1..] == [];
    }
  }

  // ---- How a delete leaks ----

  lemma LeaksLater(p: Program, host: HostId, vm: Vm, f: Fate, calls: seq<Call>) returns (all: seq<Call>)
    requires Possible(p, host, vm, f)
    requires Leaks(Next(p, f), NextHost(p, host, f), CallEffect(p, host, vm, f), calls)
    ensures Leaks(p, host, vm, all)
    ensures Undisturbed(Next(p, f), NextHost(p, host, f), CallEffect(p, host, vm, f), calls) ==> Undisturbed(p, host, vm, all)
  {
    all := [Call(vm, f)] + calls;
    assert all[1..] == calls;
  }

  predicate AllSucceed(calls: seq<Call>) {
    forall c :: c in calls ==> c.fate == Succeeds
  }

  /** Nothing happens to the VM between the calls. */
  predicate Undisturbed(p: Program, host: HostId, vm: Vm, calls: seq<Call>)
    decreases |calls|
  {
    calls == [] ||
    var c := calls[0];
    && c.met == vm
    && Undisturbed(Next(p, c.fate), NextHost(p, host, c.fate), CallEffect(p, host, vm, c.fate), calls[1..])
  }

  /** Dropping the record over a held placement. */
  lemma DropLeaks(host: HostId, vm: Vm) returns (calls: seq<Call>)
    requires vm.placement.Some?
    ensures Leaks(DropRecord, host, vm, calls) && AllSucceed(calls) && Undisturbed(DropRecord, host, vm, calls)
  {
    calls := [Call(vm, Succeeds)];
  }

  /** With a VM that may be on the agent: everything works but the release. */
  lemma FailedReleaseLeaks(vm: Vm) returns (calls: seq<Call>)
    requires vm.record.Some? && MayExistOnAgent(vm.record.value) && vm.placement.Some?
    ensures Leaks(DeleteProgram(vm.record.value), FirstHost(vm.record.value), vm, calls)
    ensures Undisturbed(DeleteProgram(vm.record.value), FirstHost(vm.record.value), vm, calls)
  {
    var p, h := DeleteProgram(vm.record.value), FirstHost(vm.record.value);
    ReleaseThenDropIs();
    var gone := vm.(live := vm.live - {h});
    var off := gone.(record := WithHost(gone.record, None));
    calls := DropLeaks(h, off);
    calls := LeaksLater(ReleaseThenDrop.err, h, gone, Succeeds, calls);
    calls := LeaksLater(ReleaseThenDrop, h, gone, Fails, calls);
    calls := LeaksLater(p.ok, h, vm, Succeeds, calls);
    calls := LeaksLater(p, h, vm, Succeeds, calls);
  }

  /** For every handler and VM, over all ways its calls can end: some execution leaks if and only if the handler is a
      delete and a placement is held when it starts. */
  lemma MayLeakIff(handler: Handler, vm: Vm)
    requires vm.record.Some?
    ensures MayLeak(handler, vm) <==> handler == HDelete && vm.placement.Some?
  {
    var r := vm.record.value;
    var p, h := ProgramOf(handler, r), FirstHost(r);
    if handler != HDelete {
      OnlyDeleteDropsRecords(handler, r);
      forall calls
        ensures !Leaks(p, h, vm, calls)
      {
        NoLeakWithTheRecord(p, h, vm, calls);
      }
    } else if vm.placement.None? {
      DeleteReservesNothing(r);
      forall calls
        ensures !Leaks(p, h, vm, calls)
      {
        NoLeakWithoutPlacement(p, h, vm, calls);
      }
    } else if MayExistOnAgent(r) {
      var calls := FailedReleaseLeaks(vm);
    } else {
      var calls := DropLeaks(h, vm);
    }
  }

  /** A delete all of whose calls succeed leaks if and only if a placement is held although the record does not say
      that the VM may be on an agent: then the release is never tried. */
  lemma SuccessfulDeleteLeaksIff(vm: Vm)
    requires vm.record.Some?
    ensures var (r, h) := (vm.record.value, FirstHost(vm.record.value));
            (exists calls :: Leaks(DeleteProgram(r), h, vm, calls) && AllSucceed(calls)) <==>
            vm.placement.Some? && !MayExistOnAgent(r)
  {
    var r, h := vm.record.value, FirstHost(vm.record.value);
    if MayExistOnAgent(r) {
      forall calls | AllSucceed(calls)
        ensures !Leaks(DeleteProgram(r), h, vm, calls)
      {
        ReleasedInTime(vm, calls);
      }
    } else if vm.placement.Some? {
      var calls := DropLeaks(h, vm);
    } else {
      forall calls
        ensures !Leaks(DropRecord, h, vm, calls)
      {
        NoLeakWithoutPlacement(DropRecord, h, vm, calls);
      }
    }
  }

  /** A successful release comes before the drop. */
  lemma ReleasedInTime(vm: Vm, calls: seq<Call>)
    requires vm.record.Some? && MayExistOnAgent(vm.record.value) && AllSucceed(calls)
    ensures !Leaks(DeleteProgram(vm.record.value), FirstHost(vm.record.value), vm, calls)
  {
    var p, h := DeleteProgram(vm.record.value), FirstHost(vm.record.value);
    ReleaseThenDropIs();
    if Leaks(p, h, vm, calls) {
      var found := LeakGoesOn(p, h, vm, calls);
      var gone := LeakGoesOn(p.ok, h, found, calls[1..]);
      var released := LeakGoesOn(ReleaseThenDrop, h, gone, calls[1..][1..]);
      NoLeakWithoutPlacement(ReleaseThenDrop.ok, h, released, calls[1..][1..][1..]);
    }
  }

  /** A leak is not over with a call that leaves the record. */
  lemma LeakGoesOn(p: Program, host: HostId, vm: Vm, calls: seq<Call>) returns (next: Vm)
    requires Leaks(p, host, vm, calls) && AllSucceed(calls) && vm.record.Some?
    requires p.LookupHost? || p.Destroy? || (p.Store? && p.call.Release?)
    ensures |calls| > 1 && AllSucceed(calls[1..]) && next.record.Some? && Leaks(p.ok, host, next, calls[1..])
    ensures p.Store? ==> next.placement.None?
  {
    assert calls[0] in calls;
    next := CallEffect(p, host, calls[0].met, Succeeds);
  }

  // ---- What it costs the host ----

  /** The world after one call of the handler on `b`. */
  function Called(w: World, b: VmId, f: Fate): World
    requires b in w.vms && b in w.tasks
  {
    var t, vm := w.tasks[b], w.vms[b];
    var after := CallEffect(t.program, t.host, vm, f);
    World(w.vms[b := after], w.tasks[b := Task(Next(t.program, f), NextHost(t.program, t.host, f))], Charged(w.hosts, vm, after))
  }

  lemma NextReservesNothing(p: Program, f: Fate)
    requires ReservesNothing(p) && p != Done
    ensures ReservesNothing(Next(p, f))
  {
  }

  /** An execution that leaks, as a run of the fleet: the host is short of exactly the VM's size at its end. */
  lemma {:induction false} LeaksInTheFleet(w: World, b: VmId, calls: seq<Call>, h: HostId) returns (ws: seq<World>)
    requires b in w.vms && b in w.tasks && h in w.hosts && w.vms[b].placement == Some(h)
    requires var t := w.tasks[b];
             && ReservesNothing(t.program) && Leaks(t.program, t.host, w.vms[b], calls)
             && Undisturbed(t.program, t.host, w.vms[b], calls)
    ensures ws != [] && StepByStep(ws) && ws[0] == w && h in Last(ws).hosts && b in Last(ws).vms
    ensures Last(ws).hosts[h].leaked == Plus(w.hosts[h].leaked, w.vms[b].size) && Last(ws).vms[b].record.None?
    decreases |calls|
  {
    var t, vm, f := w.tasks[b], w.vms[b], calls[0].fate;
    var next := Called(w, b, f);
    assert CallStep(w, next, b, f);
    if |calls| == 1 {
      ws := [w, next];
      assert StepAt(ws, 0);
    } else {
      PlacementChange(t.program, t.host, vm, f);
      NextReservesNothing(t.program, f);
      if next.vms[b].placement.None? {
        NoLeakWithoutPlacement(next.tasks[b].program, next.tasks[b].host, next.vms[b], calls[1..]);
      }
      ws := LeaksInTheFleet(next, b, calls[1..], h);
      OneStepEarlier(w, ws);
      ws := [w] + ws;
    }
  }

  /** A delete that finds a placement held can leak, with nothing else going on. */
  lemma DeleteCanLeak(vm: Vm) returns (calls: seq<Call>)
    requires vm.record.Some? && vm.placement.Some?
    ensures var (p, h) := (DeleteProgram(vm.record.value), FirstHost(vm.record.value));
            ReservesNothing(p) && Leaks(p, h, vm, calls) && Undisturbed(p, h, vm, calls)
  {
    DeleteReservesNothing(vm.record.value);
    if MayExistOnAgent(vm.record.value) {
      calls := FailedReleaseLeaks(vm);
    } else {
      calls := DropLeaks(FirstHost(vm.record.value), vm);
    }
  }

  /** From every covered, balanced fleet, a delete that finds a placement held can leave the host short of exactly the
      VM's size. */
  lemma HeldPlacementCanLeak(w: World, b: VmId, h: HostId) returns (ws: seq<World>)
    requires Inv(w) && b in w.vms && w.tasks[b].program == Done && w.vms[b].pending == {} && w.vms[b].record.Some?
    requires w.vms[b].placement == Some(h)
    ensures |ws| > 1 && StepByStep(ws) && ws[0] == w && StartStep(w, ws[1], b, HDelete)
    ensures h in w.hosts && h in Last(ws).hosts && Last(ws).hosts[h].leaked == Plus(w.hosts[h].leaked, w.vms[b].size)
  {
    var calls := DeleteCanLeak(w.vms[b]);
    var t := Task(DeleteProgram(w.vms[b].record.value), FirstHost(w.vms[b].record.value));
    var started := w.(tasks := w.tasks[b := t]);
    ws := LeaksInTheFleet(started, b, calls, h);
    assert StartStep(w, started, b, HDelete);
    OneStepEarlier(w, ws);
    ws := [w] + ws;
  }

  /** A stop whose release fails still completes; it leaves a record without a host over the held placement, which the
      next delete drops although all its calls succeed. */
  lemma StopCanStrand(vm: Vm, h: HostId) returns (calls: seq<Call>, after: Vm)
    requires vm.record.Some? && vm.record.value.host == Some(h) && vm.placement.Some?
    ensures Reaches(StopProgram(vm.record.value), h, vm, calls, Done, after)
    ensures after.record == Some(Record(Stopped, None)) && after.placement == vm.placement
    ensures exists more :: Leaks(DeleteProgram(after.record.value), FirstHost(after.record.value), after, more) && AllSucceed(more)
  {
    var p := StopProgram(vm.record.value);
    var gone := vm.(live := vm.live - {h});
    var off := gone.(record := WithHost(gone.record, None));
    after := off.(record := WithStatus(off.record, Stopped));
    FinishStopIs();
    calls := CallFirst(FinishStop.err.ok, h, off, Call(off, Succeeds), [], Done, after);
    calls := CallFirst(FinishStop.err, h, gone, Call(gone, Succeeds), calls, Done, after);
    calls := CallFirst(FinishStop, h, gone, Call(gone, Fails), calls, Done, after);
    calls := CallFirst(p.ok, h, vm, Call(vm, Succeeds), calls, Done, after);
    calls := CallFirst(p, h, vm, Call(vm, Succeeds), calls, Done, after);
    SuccessfulDeleteLeaksIff(after);
  }

  lemma FinishStopIs()
    ensures var stopped := Store(SetStatus(Stopped), Done, Done);
            var off := Store(Unassign, stopped, stopped);
            FinishStop == Store(Release, off, off)
  {
    var one, two := [SetStatus(Stopped)], [Unassign, SetStatus(Stopped)];
    assert one[1..] == [] && two[1..] == one && [Release, Unassign, SetStatus(Stopped)][1..] == two;
    assert Then(one, Done) == Store(SetStatus(Stopped), Done, Done);
    assert Then(two, Done) == Store(Unassign, Then(one, Done), Then(one, Done));
  }

  // ---- A whole run that leaks ----

  function Alone(b: VmId, vm: Vm, t: Task, hosts: map<HostId, Host>): World {
    World(map[b := vm], map[b := t], hosts)
  }

  lemma AloneCalls(b: VmId, vm: Vm, t: Task, hosts: map<HostId, Host>, f: Fate)
    requires Possible(t.program, t.host, vm, f) && HasRoom(Alone(b, vm, t, hosts), vm, f)
    ensures var after := CallEffect(t.program, t.host, vm, f);
            var next := Alone(b, after, Task(Next(t.program, f), NextHost(t.program, t.host, f)), Charged(hosts, vm, after));
            CallStep(Alone(b, vm, t, hosts), next, b, f)
  {
    var w := Alone(b, vm, t, hosts);
    var next := Called(w, b, f);
    var after := CallEffect(t.program, t.host, vm, f);
    assert w.vms[b := after] == map[b := after];
    assert CallStep(w, next, b, f);
    assert next.tasks == map[b := Task(Next(t.program, f), NextHost(t.program, t.host, f))];
  }

  lemma AloneStarts(b: VmId, vm: Vm, hosts: map<HostId, Host>, handler: Handler)
    requires vm.pending == {} && vm.record.Some? && Enabled(handler, vm.record.value)
    ensures var t := Task(ProgramOf(handler, vm.record.value), FirstHost(vm.record.value));
            StartStep(Alone(b, vm, Idle, hosts), Alone(b, vm, t, hosts), b, handler)
  {
    var t := Task(ProgramOf(handler, vm.record.value), FirstHost(vm.record.value));
    assert Alone(b, vm, Idle, hosts).tasks[b := t] == map[b := t];
  }

  /** A record without a host, over a placement that is held. */
  function Stranded(size: Size, h: HostId): Vm {
    Vm(size, Some(Record(Error, None)), Some(h), {}, {})
  }

  function StartingVm(size: Size, placement: Option<HostId>): Vm {
    Vm(size, Some(Record(Provisioning, None)), placement, {}, {})
  }

  function OneHost(size: Size, debited: Size): map<HostId, Host> {
    map[0 := Host(size, debited, Size(0, 0), Size(0, 0))]
  }

  /** A new record, and its start up to the reservation. */
  lemma FirstSteps(b: VmId, size: Size) returns (ws: seq<World>)
    ensures Run(ws) && Last(ws) == Alone(b, StartingVm(size, None), Task(StartProgram.ok, 0), OneHost(size, Size(0, 0)))
  {
    var vm, hosts := Vm(size, Some(Record(Stopped, None)), None, {}, {}), OneHost(size, Size(0, 0));
    var w0 := World(map[], map[], hosts);
    var w1, w2 := Alone(b, vm, Idle, hosts), Alone(b, vm, Task(StartProgram, 0), hosts);
    var w3 := Alone(b, StartingVm(size, None), Task(StartProgram.ok, 0), hosts);
    assert CreateStep(w0, w1, b, size) by {
      assert w0.vms[b := vm] == map[b := vm] && w0.tasks[b := Idle] == map[b := Idle];
    }
    AloneStarts(b, vm, hosts, HStart);
    AloneCalls(b, vm, Task(StartProgram, 0), hosts, Succeeds);
    assert Step(w0, w1) && Step(w1, w2) && Step(w2, w3);
    ws := [w0, w1, w2, w3];
    assert StepAt(ws, 0) && StepAt(ws, 1) && StepAt(ws, 2);
  }

  /** A start whose reservation is reported as failed and could not be rolled back. */
  lemma StrandedPlacement(b: VmId, size: Size) returns (ws: seq<World>)
    ensures Run(ws) && Last(ws) == Alone(b, Stranded(size, 0), Idle, OneHost(size, size))
  {
    var free, full := OneHost(size, Size(0, 0)), OneHost(size, size);
    var held := Alone(b, StartingVm(size, Some(0)), Task(KeepAsError, 0), full);
    var failed := Alone(b, Stranded(size, 0), Idle, full);
    ws := FirstSteps(b, size);
    AloneCalls(b, StartingVm(size, None), Task(StartProgram.ok, 0), free, HeldButFails(0));
    assert Charged(free, StartingVm(size, None), StartingVm(size, Some(0))) == full;
    RunGoesOn(ws, held);
    ws := ws + [held];
    OneStoreCall();
    AloneCalls(b, StartingVm(size, Some(0)), Task(KeepAsError, 0), full, Succeeds);
    RunGoesOn(ws, failed);
    ws := ws + [failed];
  }

  lemma OneStoreCall()
    ensures KeepAsError == Store(SetStatus(Error), Done, Done)
  {
    assert [SetStatus(Error)][1..] == [];
  }

  function DeletingStranded(b: VmId, size: Size): World {
    Alone(b, Stranded(size, 0), Task(DropRecord, 0), OneHost(size, size))
  }

  /** The host stays full although nothing is on it. */
  function FullForGood(b: VmId, size: Size): World {
    Alone(b, Vm(size, None, None, {}, {}), Idle, map[0 := Host(size, size, Size(0, 0), size)])
  }

  lemma DeleteStranded(b: VmId, size: Size)
    ensures StartStep(Alone(b, Stranded(size, 0), Idle, OneHost(size, size)), DeletingStranded(b, size), b, HDelete)
    ensures CallStep(DeletingStranded(b, size), FullForGood(b, size), b, Succeeds)
  {
    var vm, hosts := Stranded(size, 0), OneHost(size, size);
    AloneStarts(b, vm, hosts, HDelete);
    AloneCalls(b, vm, Task(DropRecord, 0), hosts, Succeeds);
    var after := CallEffect(DropRecord, 0, vm, Succeeds);
    assert Charged(hosts, vm, after) == FullForGood(b, size).hosts;
  }

  /** The delete that follows drops the record and the placement, and none of its calls fails. */
  lemma LeakingRun(b: VmId, size: Size) returns (ws: seq<World>)
    ensures |ws| > 2 && Run(ws)
    ensures StartStep(ws[|ws| - 3], ws[|ws| - 2], b, HDelete) && CallStep(ws[|ws| - 2], ws[|ws| - 1], b, Succeeds)
    ensures Last(ws) == FullForGood(b, size)
  {
    var front := StrandedPlacement(b, size);
    var started, full := DeletingStranded(b, size), FullForGood(b, size);
    DeleteStranded(b, size);
    assert Step(Last(front), started) && Step(started, full);
    RunGoesOn(front, started);
    RunGoesOn(front + [started], full);
    ws := front + [started] + [full];
  }

  lemma RunGoesOn(ws: seq<World>, w: World)
    requires Run(ws) && Step(Last(ws), w)
    ensures Run(ws + [w])
  {
    var all := ws + [w];
    forall i | 0 <= i < |all| - 1
      ensures StepAt(all, i)
    {
      if i < |ws| - 1 {
        assert StepAt(ws, i);
      }
    }
  }
}
