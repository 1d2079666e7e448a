/** Runs over any number of browser VMs: handlers interleave freely call by call and may die between calls, VMs crash
    at any time, unresolved creates land or vanish, and machines use the rest of each host. */
module BrowserFleet {
  import opened Common
  import opened BrowserVm
  import opened Sums

  datatype Dim = VCpus | Memory

  function Amount(s: Size, d: Dim): nat {
    if d.VCpus? then s.vcpus else s.memoryMB
  }

  function Plus(a: Size, b: Size): Size {
    Size(a.vcpus + b.vcpus, a.memoryMB + b.memoryMB)
  }

  predicate Fits(a: Size, b: Size) {
    a.vcpus <= b.vcpus && a.memoryMB <= b.memoryMB
  }

  function Minus(a: Size, b: Size): Size
    requires Fits(b, a)
  {
    Size(a.vcpus - b.vcpus, a.memoryMB - b.memoryMB)
  }

  /** A host's counters: what browser VMs have debited, what machines use, and, for the books only, the part of
      the debit whose placement row was dropped together with its record. */
  datatype Host = Host(capacity: Size, debited: Size, machines: Size, leaked: Size)

  /** What the control plane is doing about one VM. */
  datatype Task = Task(program: Program, host: HostId)

  datatype World = World(vms: map<VmId, Vm>, tasks: map<VmId, Task>, hosts: map<HostId, Host>)

  const Idle := Task(Done, 0)

  // ---- Steps ----

  /** A reservation needs a known host with room. */
  predicate HasRoom(w: World, vm: Vm, f: Fate) {
    (f.OnHost? || f.HeldButFails?) ==>
      f.host in w.hosts && Fits(Plus(Plus(w.hosts[f.host].debited, w.hosts[f.host].machines), vm.size), w.hosts[f.host].capacity)
  }

  /** The counters follow the placement: taken on reserve, returned on release, stuck when the row is dropped. */
  function Charged(hosts: map<HostId, Host>, before: Vm, after: Vm): map<HostId, Host> {
    if before.placement == after.placement then hosts
    else if before.placement.None? then
      var h := after.placement.value;
      if h in hosts then hosts[h := hosts[h].(debited := Plus(hosts[h].debited, before.size))] else hosts
    else
      var h := before.placement.value;
      if h !in hosts then hosts
      else if after.record.None? then
        hosts[h := hosts[h].(leaked := Plus(hosts[h].leaked, before.size))]
      else if Fits(before.size, hosts[h].debited) then
        hosts[h := hosts[h].(debited := Minus(hosts[h].debited, before.size))]
      else hosts
  }

  /** One call of the handler working on `b`. */
  ghost predicate CallStep(w: World, w': World, b: VmId, f: Fate) {
    && b in w.vms && b in w.tasks
    && var vm, t := w.vms[b], w.tasks[b];
       var vm' := CallEffect(t.program, t.host, vm, f);
       && Possible(t.program, t.host, vm, f) && HasRoom(w, vm, f)
       && w' == World(w.vms[b := vm'],
                      w.tasks[b := Task(Next(t.program, f), NextHost(t.program, t.host, f))],
                      Charged(w.hosts, vm, vm'))
  }

  /** A handler starts on `b`: no other handler works on it and no create for it is unresolved. */
  ghost predicate StartStep(w: World, w': World, b: VmId, handler: Handler) {
    && b in w.vms && b in w.tasks && w.tasks[b].program == Done
    && var vm := w.vms[b];
       && vm.pending == {} && vm.record.Some? && Enabled(handler, vm.record.value)
       && w' == w.(tasks := w.tasks[b := Task(ProgramOf(handler, vm.record.value), FirstHost(vm.record.value))])
  }

  /** A new record, stopped and unassigned. */
  ghost predicate CreateStep(w: World, w': World, b: VmId, size: Size) {
    && b !in w.vms && b !in w.tasks
    && w' == w.(vms := w.vms[b := Vm(size, Some(Record(Stopped, None)), None, {}, {})], tasks := w.tasks[b := Idle])
  }

  /** A VM dies on its own. */
  ghost predicate CrashStep(w: World, w': World, b: VmId, h: HostId) {
    && b in w.vms
    && w' == w.(vms := w.vms[b := w.vms[b].(live := w.vms[b].live - {h})])
  }

  /** A create of unknown outcome turns out to have landed, or not. */
  ghost predicate ResolveStep(w: World, w': World, b: VmId, h: HostId, landed: bool) {
    && b in w.vms && h in w.vms[b].pending
    && var vm := w.vms[b];
       w' == w.(vms := w.vms[b := vm.(pending := vm.pending - {h}, live := vm.live + if landed then {h} else {})])
  }

  /** Machines take or return capacity, never beyond what is left. */
  ghost predicate MachineStep(w: World, w': World, h: HostId, use: Size) {
    && h in w.hosts && Fits(Plus(w.hosts[h].debited, use), w.hosts[h].capacity)
    && w' == w.(hosts := w.hosts[h := w.hosts[h].(machines := use)])
  }

  /** The control plane dies in the middle of a handler: what is left of it never happens. */
  ghost predicate AbandonStep(w: World, w': World, b: VmId) {
    b in w.tasks && w' == w.(tasks := w.tasks[b := Idle])
  }

  ghost predicate Step(w: World, w': World) {
    || (exists b, f :: CallStep(w, w', b, f))
    || (exists b, handler :: StartStep(w, w', b, handler))
    || (exists b, size :: CreateStep(w, w', b, size))
    || (exists b, h :: CrashStep(w, w', b, h))
    || (exists b, h, landed :: ResolveStep(w, w', b, h, landed))
    || (exists h, use :: MachineStep(w, w', h, use))
    || (exists b :: AbandonStep(w, w', b))
  }

  ghost predicate Init(w: World) {
    && w.vms == map[] && w.tasks == map[]
    && forall h :: h in w.hosts ==>
         w.hosts[h].debited == Size(0, 0) && w.hosts[h].leaked == Size(0, 0) && Fits(w.hosts[h].machines, w.hosts[h].capacity)
  }

  ghost predicate Run(ws: seq<World>) {
    && ws != [] && Init(ws[0])
    && forall i :: 0 <= i < |ws| - 1 ==> StepAt(ws, i)
  }

  ghost predicate StepAt(ws: seq<World>, i: nat)
    requires i + 1 < |ws|
  {
    Step(ws[i], ws[i + 1])
  }

  // ---- The invariant ----

  /** A VM and its handler are safe, and while a create is unresolved the handler asks no agent. */
  ghost predicate SafeVm(vm: Vm, t: Task) {
    Safe(t.program, t.host, Landed(vm)) && (vm.pending == {} || AsksNoAgent(t.program))
  }

  function HeldOn(vm: Vm, h: HostId, d: Dim): nat {
    if vm.placement == Some(h) then Amount(vm.size, d) else 0
  }

  function LiveOn(vm: Vm, h: HostId, d: Dim): nat {
    if h in vm.live then Amount(vm.size, d) else 0
  }

  function HeldMap(w: World, h: HostId, d: Dim): map<VmId, nat> {
    map b | b in w.vms :: HeldOn(w.vms[b], h, d)
  }

  function LiveMap(w: World, h: HostId, d: Dim): map<VmId, nat> {
    map b | b in w.vms :: LiveOn(w.vms[b], h, d)
  }

  /** What a host's counter shows is exactly what the held placements need plus what leaked. */
  ghost predicate Balanced(w: World, h: HostId) {
    && h in w.hosts
    && (forall d: Dim :: Amount(w.hosts[h].debited, d) == Sum(HeldMap(w, h, d)) + Amount(w.hosts[h].leaked, d))
    && Fits(Plus(w.hosts[h].debited, w.hosts[h].machines), w.hosts[h].capacity)
  }

  ghost predicate Inv(w: World) {
    && w.tasks.Keys == w.vms.Keys
    && (forall b :: b in w.vms ==> SafeVm(w.vms[b], w.tasks[b]))
    && (forall b :: b in w.vms && w.vms[b].placement.Some? ==> w.vms[b].placement.value in w.hosts)
    && (forall h :: h in w.hosts ==> Balanced(w, h))
  }

  lemma SafeIsCovered(vm: Vm, t: Task)
    requires SafeVm(vm, t)
    ensures Covered(vm)
  {
    assert Maybe(Landed(vm)) == Maybe(vm);
  }

  /** One call keeps its VM safe. */
  lemma CallKeepsVmSafe(vm: Vm, t: Task, f: Fate)
    requires SafeVm(vm, t) && Possible(t.program, t.host, vm, f)
    ensures SafeVm(CallEffect(t.program, t.host, vm, f), Task(Next(t.program, f), NextHost(t.program, t.host, f)))
  {
    var vm' := CallEffect(t.program, t.host, vm, f);
    var all := Landed(vm);
    match t.program
    case Create(ok, failed, unknown) =>
      assert Landed(vm') == if f.Fails? then all else all.(live := all.live + {t.host});
    case Destroy(ok, err) =>
      assert Landed(vm') == if f.Fails? then all else all.(live := all.live - {t.host});
    case Health(gone, ready, notReady, err) =>
      if f.AgentSaysGone? {
        assert all.(live := all.live - {t.host}) == all;
      }
    case Pair(gone, other) =>
      if f.AgentSaysGone? {
        assert all.(live := all.live - {t.host}) == all;
      }
    case Store(call, ok, err) =>
      assert StoreEffect(call, t.host, all) == Landed(StoreEffect(call, t.host, vm));
    case _ =>
  }

  lemma CrashKeepsVmSafe(vm: Vm, t: Task, h: HostId)
    requires SafeVm(vm, t)
    ensures SafeVm(vm.(live := vm.live - {h}), t)
  {
    var vm' := vm.(live := vm.live - {h});
    FewerPlacesStaySafe(t.program, t.host, Landed(vm), Maybe(vm'));
    assert Landed(vm') == Landed(vm).(live := Maybe(vm'));
  }

  lemma ResolveKeepsVmSafe(vm: Vm, t: Task, h: HostId, landed: bool)
    requires SafeVm(vm, t) && h in vm.pending
    ensures SafeVm(vm.(pending := vm.pending - {h}, live := vm.live + if landed then {h} else {}), t)
  {
    var vm' := vm.(pending := vm.pending - {h}, live := vm.live + if landed then {h} else {});
    FewerPlacesStaySafe(t.program, t.host, Landed(vm), Maybe(vm'));
    assert Landed(vm') == Landed(vm).(live := Maybe(vm'));
  }

  lemma StartKeepsVmSafe(vm: Vm, t: Task, handler: Handler)
    requires SafeVm(vm, t) && vm.pending == {} && vm.record.Some? && Enabled(handler, vm.record.value)
    ensures SafeVm(vm, Task(ProgramOf(handler, vm.record.value), FirstHost(vm.record.value)))
  {
    SafeIsCovered(vm, t);
    assert Landed(vm) == vm;
    HandlersAreSafe(handler, vm);
  }

  /** The sum of held placements on a host after one VM changed. */
  lemma HeldAfter(w: World, w': World, b: VmId, h: HostId, d: Dim)
    requires w'.vms.Keys == w.vms.Keys + {b} && b in w'.vms
    requires forall other :: other in w.vms && other != b ==> w'.vms[other] == w.vms[other]
    ensures Sum(HeldMap(w', h, d)) ==
            Sum(HeldMap(w, h, d)) - (if b in w.vms then HeldOn(w.vms[b], h, d) else 0) + HeldOn(w'.vms[b], h, d)
  {
    SumUpdate(HeldMap(w, h, d), b, HeldOn(w'.vms[b], h, d));
    assert HeldMap(w', h, d) == HeldMap(w, h, d)[b := HeldOn(w'.vms[b], h, d)];
  }

  lemma HeldIsDebited(w: World, b: VmId, h: HostId)
    requires b in w.vms && h in w.hosts && w.vms[b].placement == Some(h) && Balanced(w, h)
    ensures Fits(w.vms[b].size, w.hosts[h].debited)
  {
    SumSplit(HeldMap(w, h, VCpus), b);
    SumSplit(HeldMap(w, h, Memory), b);
    assert Amount(w.hosts[h].debited, VCpus) >= HeldMap(w, h, VCpus)[b];
    assert Amount(w.hosts[h].debited, Memory) >= HeldMap(w, h, Memory)[b];
  }

  /** A step that leaves one VM's placement as it was keeps every counter balanced. */
  lemma SamePlacementStaysBalanced(w: World, w': World, b: VmId)
    requires Inv(w) && w'.hosts == w.hosts && b in w'.vms && w'.vms.Keys == w.vms.Keys + {b}
    requires forall other :: other in w.vms && other != b ==> w'.vms[other] == w.vms[other]
    requires if b in w.vms then w'.vms[b].placement == w.vms[b].placement && w'.vms[b].size == w.vms[b].size
             else w'.vms[b].placement == None
    ensures forall h :: h in w'.hosts ==> Balanced(w', h)
  {
    forall h | h in w'.hosts
      ensures Balanced(w', h)
    {
      assert Balanced(w, h);
      forall d: Dim
        ensures Amount(w'.hosts[h].debited, d) == Sum(HeldMap(w', h, d)) + Amount(w'.hosts[h].leaked, d)
      {
        HeldAfter(w, w', b, h, d);
      }
    }
  }

  /** How a call can change a placement. */
  lemma PlacementChange(p: Program, host: HostId, vm: Vm, f: Fate)
    requires Possible(p, host, vm, f)
    ensures var vm' := CallEffect(p, host, vm, f);
            && vm'.size == vm.size
            && (vm'.placement == vm.placement || vm'.placement == None
                || (vm.placement == None && (f.OnHost? || f.HeldButFails?) && vm'.placement == Some(f.host)))
  {
  }

  lemma CallStaysBalanced(w: World, w': World, b: VmId, f: Fate)
    requires Inv(w) && CallStep(w, w', b, f)
    ensures forall h :: h in w'.hosts ==> Balanced(w', h)
  {
    var vm, t := w.vms[b], w.tasks[b];
    var vm' := CallEffect(t.program, t.host, vm, f);
    PlacementChange(t.program, t.host, vm, f);
    if vm'.placement == vm.placement {
      SamePlacementStaysBalanced(w, w', b);
    } else {
      forall h | h in w'.hosts
        ensures Balanced(w', h)
      {
        CallBalancesHost(w, w', b, f, h);
      }
    }
  }

  lemma CallBalancesHost(w: World, w': World, b: VmId, f: Fate, h: HostId)
    requires Inv(w) && CallStep(w, w', b, f) && h in w.hosts && w'.vms[b].placement != w.vms[b].placement
    ensures Balanced(w', h)
  {
    var t := w.tasks[b];
    PlacementChange(t.program, t.host, w.vms[b], f);
    assert Balanced(w, h);
    if w'.vms[b].placement == None {
      GivingUpBalances(w, w', b, h);
    } else {
      TakingBalances(w, w', b, h);
    }
  }

  /** Releasing a placement, or dropping its row. */
  lemma GivingUpBalances(w: World, w': World, b: VmId, h: HostId)
    requires b in w.vms && b in w'.vms && w'.vms == w.vms[b := w'.vms[b]] && Balanced(w, h)
    requires w.vms[b].placement.Some? && w'.vms[b].placement.None?
    requires w'.hosts == Charged(w.hosts, w.vms[b], w'.vms[b])
    ensures Balanced(w', h)
  {
    if w.vms[b].placement == Some(h) {
      HeldIsDebited(w, b, h);
    }
    HeldAfter(w, w', b, h, VCpus);
    HeldAfter(w, w', b, h, Memory);
    BalancedByDims(w', h);
  }

  /** Taking a placement where there is room. */
  lemma TakingBalances(w: World, w': World, b: VmId, h: HostId)
    requires b in w.vms && b in w'.vms && w'.vms == w.vms[b := w'.vms[b]] && Balanced(w, h)
    requires w.vms[b].placement.None? && w'.vms[b].placement.Some? && w'.vms[b].size == w.vms[b].size
    requires w'.hosts == Charged(w.hosts, w.vms[b], w'.vms[b])
    requires w'.vms[b].placement == Some(h) ==>
               Fits(Plus(Plus(w.hosts[h].debited, w.hosts[h].machines), w.vms[b].size), w.hosts[h].capacity)
    ensures Balanced(w', h)
  {
    HeldAfter(w, w', b, h, VCpus);
    HeldAfter(w, w', b, h, Memory);
    BalancedByDims(w', h);
  }

  lemma BalancedByDims(w: World, h: HostId)
    requires h in w.hosts && Fits(Plus(w.hosts[h].debited, w.hosts[h].machines), w.hosts[h].capacity)
    requires w.hosts[h].debited.vcpus == Sum(HeldMap(w, h, VCpus)) + w.hosts[h].leaked.vcpus
    requires w.hosts[h].debited.memoryMB == Sum(HeldMap(w, h, Memory)) + w.hosts[h].leaked.memoryMB
    ensures Balanced(w, h)
  {
    forall d: Dim
      ensures Amount(w.hosts[h].debited, d) == Sum(HeldMap(w, h, d)) + Amount(w.hosts[h].leaked, d)
    {
      match d
      case VCpus =>
      case Memory =>
    }
  }

  lemma CallKeepsInv(w: World, w': World, b: VmId, f: Fate)
    requires Inv(w) && CallStep(w, w', b, f)
    ensures Inv(w')
  {
    CallKeepsVmSafe(w.vms[b], w.tasks[b], f);
    CallStaysBalanced(w, w', b, f);
    PlacementChange(w.tasks[b].program, w.tasks[b].host, w.vms[b], f);
  }

  lemma MachinesKeepInv(w: World, w': World, h: HostId, use: Size)
    requires Inv(w) && MachineStep(w, w', h, use)
    ensures Inv(w')
  {
    forall g | g in w'.hosts
      ensures Balanced(w', g)
    {
      assert Balanced(w, g);
      assert HeldMap(w', g, VCpus) == HeldMap(w, g, VCpus) && HeldMap(w', g, Memory) == HeldMap(w, g, Memory);
      BalancedByDims(w', g);
    }
  }

  lemma StartKeepsInv(w: World, w': World, b: VmId, handler: Handler)
    requires Inv(w) && StartStep(w, w', b, handler)
    ensures Inv(w')
  {
    StartKeepsVmSafe(w.vms[b], w.tasks[b], handler);
    SamePlacementStaysBalanced(w, w', b);
  }

  lemma CreateKeepsInv(w: World, w': World, b: VmId, size: Size)
    requires Inv(w) && CreateStep(w, w', b, size)
    ensures Inv(w')
  {
    assert Covered(w'.vms[b]) && Landed(w'.vms[b]) == w'.vms[b];
    SamePlacementStaysBalanced(w, w', b);
  }

  lemma CrashKeepsInv(w: World, w': World, b: VmId, h: HostId)
    requires Inv(w) && CrashStep(w, w', b, h)
    ensures Inv(w')
  {
    CrashKeepsVmSafe(w.vms[b], w.tasks[b], h);
    SamePlacementStaysBalanced(w, w', b);
  }

  lemma ResolveKeepsInv(w: World, w': World, b: VmId, h: HostId, landed: bool)
    requires Inv(w) && ResolveStep(w, w', b, h, landed)
    ensures Inv(w')
  {
    ResolveKeepsVmSafe(w.vms[b], w.tasks[b], h, landed);
    SamePlacementStaysBalanced(w, w', b);
  }

  lemma AbandonKeepsInv(w: World, w': World, b: VmId)
    requires Inv(w) && AbandonStep(w, w', b)
    ensures Inv(w')
  {
    SafeIsCovered(w.vms[b], w.tasks[b]);
    assert Maybe(Landed(w.vms[b])) == Maybe(w.vms[b]);
    SamePlacementStaysBalanced(w, w', b);
  }

  lemma StepKeepsInv(w: World, w': World)
    requires Inv(w) && Step(w, w')
    ensures Inv(w')
  {
    if b, f :| CallStep(w, w', b, f) {
      CallKeepsInv(w, w', b, f);
    } else if b, handler :| StartStep(w, w', b, handler) {
      StartKeepsInv(w, w', b, handler);
    } else if b, size :| CreateStep(w, w', b, size) {
      CreateKeepsInv(w, w', b, size);
    } else if b, h :| CrashStep(w, w', b, h) {
      CrashKeepsInv(w, w', b, h);
    } else if b, h, landed :| ResolveStep(w, w', b, h, landed) {
      ResolveKeepsInv(w, w', b, h, landed);
    } else if h, use :| MachineStep(w, w', h, use) {
      MachinesKeepInv(w, w', h, use);
    } else {
      var b :| AbandonStep(w, w', b);
      AbandonKeepsInv(w, w', b);
    }
  }

  lemma InitHasInv(w: World)
    requires Init(w)
    ensures Inv(w)
  {
    forall h | h in w.hosts
      ensures Balanced(w, h)
    {
      SumOfZeros(HeldMap(w, h, VCpus));
      SumOfZeros(HeldMap(w, h, Memory));
      BalancedByDims(w, h);
    }
  }

  lemma {:induction false} RunKeepsInv(ws: seq<World>, i: nat)
    requires Run(ws) && i < |ws|
    ensures Inv(ws[i])
  {
    if i == 0 {
      InitHasInv(ws[0]);
    } else {
      RunKeepsInv(ws, i - 1);
      assert StepAt(ws, i - 1);
      StepKeepsInv(ws[i - 1], ws[i]);
    }
  }

  // ---- What the invariant gives, in every state of every run ----

  /** No orphan: a VM that runs on an agent has a record that points to that host and admits that the VM may exist there. */
  lemma NoOrphan(ws: seq<World>, i: nat, b: VmId, h: HostId)
    requires Run(ws) && i < |ws| && b in ws[i].vms && h in ws[i].vms[b].live
    ensures var vm := ws[i].vms[b];
            && vm.record.Some? && vm.record.value.host == Some(h) && MayExistOnAgent(vm.record.value)
            && vm.placement == Some(h)
  {
    RunKeepsInv(ws, i);
    SafeIsCovered(ws[i].vms[b], ws[i].tasks[b]);
    assert h in Maybe(ws[i].vms[b]);
  }

  /** A browser VM never runs on two hosts at once. */
  lemma AtMostOneHost(ws: seq<World>, i: nat, b: VmId, g: HostId, h: HostId)
    requires Run(ws) && i < |ws| && b in ws[i].vms && g in ws[i].vms[b].live && h in ws[i].vms[b].live
    ensures g == h
  {
    NoOrphan(ws, i, b, g);
    NoOrphan(ws, i, b, h);
  }

  /** Only a call of the VM's own handler drops its record, and it touches no agent. */
  lemma RecordDropIsACall(w: World, w': World, b: VmId) returns (f: Fate)
    requires Step(w, w') && b in w.vms && b in w'.vms && w.vms[b].record.Some? && w'.vms[b].record.None?
    ensures CallStep(w, w', b, f) && Maybe(w'.vms[b]) == Maybe(w.vms[b])
  {
    var c, g :| CallStep(w, w', c, g);
    f := g;
  }

  lemma NoRecordNoPlaces(vm: Vm, t: Task)
    requires SafeVm(vm, t) && vm.record.None?
    ensures Maybe(vm) == {}
  {
    SafeIsCovered(vm, t);
    NowhereWithoutHost(vm);
  }

  /** A step that drops a record drops it when the VM runs nowhere, and no create for it is on its way. */
  lemma DeleteDropsOnlyTheDead(ws: seq<World>, i: nat, b: VmId)
    requires Run(ws) && i + 1 < |ws| && b in ws[i].vms && b in ws[i + 1].vms
    requires ws[i].vms[b].record.Some? && ws[i + 1].vms[b].record.None?
    ensures Maybe(ws[i].vms[b]) == {}
  {
    RunKeepsInv(ws, i + 1);
    NoRecordNoPlaces(ws[i + 1].vms[b], ws[i + 1].tasks[b]);
    assert StepAt(ws, i);
    var f := RecordDropIsACall(ws[i], ws[i + 1], b);
  }

  /** Capacity covers liveness: on every host the live browser VMs need no more than the held placements,
      these need no more than the counter shows, and with the machines it all fits. */
  lemma CapacityCoversLiveness(ws: seq<World>, i: nat, h: HostId, d: Dim)
    requires Run(ws) && i < |ws| && h in ws[i].hosts
    ensures Sum(LiveMap(ws[i], h, d)) <= Sum(HeldMap(ws[i], h, d))
    ensures Sum(HeldMap(ws[i], h, d)) + Amount(ws[i].hosts[h].leaked, d) == Amount(ws[i].hosts[h].debited, d)
    ensures Sum(LiveMap(ws[i], h, d)) + Amount(ws[i].hosts[h].machines, d) <= Amount(ws[i].hosts[h].capacity, d)
  {
    var w := ws[i];
    RunKeepsInv(ws, i);
    assert Balanced(w, h);
    forall b | b in w.vms
      ensures LiveMap(w, h, d)[b] <= HeldMap(w, h, d)[b]
    {
      if h in w.vms[b].live {
        NoOrphan(ws, i, b, h);
      }
    }
    SumMonotone(LiveMap(w, h, d), HeldMap(w, h, d));
  }

  /** The step takes `b` off host `h` without a release: the placement row goes with the record. */
  predicate DropsHeld(w: World, w': World, b: VmId, h: HostId) {
    && b in w.vms && b in w'.vms && w.vms[b].placement == Some(h)
    && w'.vms[b].placement.None? && w'.vms[b].record.None?
  }

  ghost function LostBy(w: World, w': World, h: HostId): Size {
    if exists b :: DropsHeld(w, w', b, h) then
      var b :| DropsHeld(w, w', b, h);
      w.vms[b].size
    else Size(0, 0)
  }

  lemma CallLeaksExactly(w: World, w': World, b: VmId, f: Fate, h: HostId)
    requires CallStep(w, w', b, f) && h in w.hosts
    ensures h in w'.hosts
    ensures w'.hosts[h].leaked ==
            if DropsHeld(w, w', b, h) then Plus(w.hosts[h].leaked, w.vms[b].size) else w.hosts[h].leaked
    ensures forall c :: DropsHeld(w, w', c, h) ==> c == b
  {
    PlacementChange(w.tasks[b].program, w.tasks[b].host, w.vms[b], f);
  }

  /** Told from the state before: a call drops a held placement exactly when it deletes the record while the placement
      is held, and succeeds. */
  lemma DropsHeldIff(w: World, w': World, b: VmId, f: Fate, h: HostId)
    requires CallStep(w, w', b, f) && w.vms[b].record.Some?
    ensures var p := w.tasks[b].program;
            DropsHeld(w, w', b, h) <==> p.Store? && p.call.DeleteRecord? && w.vms[b].placement == Some(h) && f == Succeeds
  {
    var vm, t := w.vms[b], w.tasks[b];
    assert w'.vms[b] == CallEffect(t.program, t.host, vm, f);
  }

  lemma OtherStepsLeakNothing(w: World, w': World, h: HostId)
    requires Step(w, w') && h in w.hosts && !(exists b, f :: CallStep(w, w', b, f))
    ensures h in w'.hosts && w'.hosts[h].leaked == w.hosts[h].leaked
    ensures forall b :: !DropsHeld(w, w', b, h)
  {
  }

  /** What a step adds to a host's leak is exactly the size of the VM whose held placement went with its record, and
      nothing when there is none. */
  lemma OnlyDroppingAHeldPlacementLeaks(w: World, w': World, h: HostId)
    requires Step(w, w') && h in w.hosts
    ensures h in w'.hosts && w'.hosts[h].leaked == Plus(w.hosts[h].leaked, LostBy(w, w', h))
    ensures forall b :: DropsHeld(w, w', b, h) ==> LostBy(w, w', h) == w.vms[b].size
  {
    if b, f :| CallStep(w, w', b, f) {
      CallLeaksExactly(w, w', b, f, h);
    } else {
      OtherStepsLeakNothing(w, w', h);
    }
  }

  ghost function LostUpTo(ws: seq<World>, i: nat, h: HostId): Size
    requires i < |ws|
  {
    if i == 0 then Size(0, 0) else Plus(LostUpTo(ws, i - 1, h), LostBy(ws[i - 1], ws[i], h))
  }

  /** In every reachable state, a host's counters exceed what its held placements need by exactly the sizes of the
      VMs whose held placements were dropped with their records so far. */
  lemma {:induction false} LeakIsWhatWasDropped(ws: seq<World>, i: nat, h: HostId, d: Dim)
    requires Run(ws) && i < |ws| && h in ws[0].hosts
    ensures h in ws[i].hosts && ws[i].hosts[h].leaked == LostUpTo(ws, i, h)
    ensures Amount(ws[i].hosts[h].debited, d) - Sum(HeldMap(ws[i], h, d)) == Amount(LostUpTo(ws, i, h), d)
  {
    if i > 0 {
      LeakIsWhatWasDropped(ws, i - 1, h, d);
      assert StepAt(ws, i - 1);
      OnlyDroppingAHeldPlacementLeaks(ws[i - 1], ws[i], h);
    }
    RunKeepsInv(ws, i);
    assert Balanced(ws[i], h);
  }
}
