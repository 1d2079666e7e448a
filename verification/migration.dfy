/** Moving a machine to another host: the phases of the durable workflow and of the synchronous handler, over the
    machine's record, its VMs and data volumes on the hosts, and the recorded backups. */
module Migration {
  import opened Common

  type HostId = nat

  /** The contents of a data volume, up to equality. */
  type Data = nat

  datatype Status = Stopped | Provisioning | Starting | Running | Error

  datatype Mode = Workflow | Synchronous

  /** `backupsOn`: backups are enabled on the machine and a master key is configured. */
  datatype Request = Request(mode: Mode, target: HostId, force: bool, backupsOn: bool)

  datatype Plan = Plan(source: Option<HostId>, canBackup: bool)

  datatype Outcome = Migrated | MigratedAndRestored | Failed

  datatype Phase =
    | Prepare | StopSource | BackupSource | AbortRestore | DestroySource | ReleaseSource
    | StartTarget | WaitTarget | CleanupTarget
    | StopForRestore | WaitStopped | RestoreBackup | RestartRestored | WaitRestored
    | Finished(outcome: Outcome)

  /** `known` are the hosts whose agent still lists the VM; on `live` ones it really runs.
      The last three fields are history: the host the machine was on at first, the latest contents of its
      volume there, and the contents the VM last booted from. */
  datatype State = State(
    phase: Phase, plan: Plan, snapshot: Option<Data>,
    status: Status, host: Option<HostId>,
    live: set<HostId>, known: set<HostId>, volumes: map<HostId, Data>, backups: seq<Data>,
    source: Option<HostId>, last: Option<Data>, booted: Option<Data>)

  function At(s: State, phase: Phase): State {
    s.(phase := phase)
  }

  // ---- Effects ----

  /** Stopping a VM takes it off the agent's list and keeps its volume; an unknown VM counts as stopped. */
  function VmStopped(s: State, h: HostId): State {
    s.(live := s.live - {h}, known := s.known - {h})
  }

  /** Destroying a VM the agent lists deletes its volume too; an unknown one is left alone. */
  function VmDestroyed(s: State, h: HostId): State {
    VmStopped(s, h).(volumes := if h in s.known then s.volumes - {h} else s.volumes)
  }

  /** How a destroy whose error is ignored can leave the host. */
  predicate DestroyTried(s: State, t: State, h: HostId) {
    t == s || t == VmDestroyed(s, h) || t == VmStopped(s, h) || t == s.(live := s.live - {h})
  }

  function VmBooted(s: State, h: HostId, d: Data, status: Status): State {
    s.(host := Some(h), status := status, live := s.live + {h}, known := s.known + {h},
       volumes := s.volumes[h := d], booted := Some(d))
  }

  /** A start on host `h`: the agent reuses the volume it finds, unless it first had to destroy a VM it still listed. */
  ghost predicate Started(s: State, t: State, h: HostId) {
    exists d: Data, status: Status ::
      && (status == Provisioning || status == Starting)
      && (h in s.volumes && h !in s.known ==> d == s.volumes[h])
      && t == VmBooted(s, h, d, status)
  }

  /** A start that failed somewhere on the way touches nothing but the record and host `h`. */
  ghost predicate StartFailed(s: State, t: State, h: HostId) {
    && (t.host == s.host || t.host == Some(h) || t.host == None)
    && (forall g :: g != h ==>
          && (g in t.live <==> g in s.live) && (g in t.known <==> g in s.known)
          && (g in t.volumes <==> g in s.volumes) && (g in t.volumes ==> t.volumes[g] == s.volumes[g]))
    && t == s.(status := t.status, host := t.host, live := t.live, known := t.known, volumes := t.volumes)
  }

  // ---- What happens around the workflow ----

  function Wrote(s: State, h: HostId, d: Data): State {
    s.(volumes := s.volumes[h := d], last := if s.source == Some(h) then Some(d) else s.last)
  }

  /** A live VM writes, a VM dies on its own, or a host the machine has left drops a volume no VM uses. */
  ghost predicate Around(s: State, t: State) {
    || (exists h: HostId, d: Data :: h in s.live && t == Wrote(s, h, d))
    || (exists h: HostId :: h in s.live && t == s.(live := s.live - {h}))
    || (exists h: HostId :: h !in s.known && s.host != Some(h) && t == s.(volumes := s.volumes - {h}))
  }

  // ---- The phases ----

  predicate Acceptable(req: Request, s: State) {
    && s.host != Some(req.target)
    && (s.host.Some? && !req.backupsOn ==> req.force)
  }

  function PlanFor(req: Request, s: State): Plan {
    Plan(s.host, s.host.Some? && req.backupsOn)
  }

  predicate PrepareStep(req: Request, s: State, t: State) {
    || t == At(s, Finished(Failed))
    || (Acceptable(req, s) && (s.host.Some? || req.mode == Workflow || s.status != Running)
        && t == s.(plan := PlanFor(req, s), phase := if s.host.Some? then StopSource else StartTarget))
  }

  function AfterStop(s: State): Phase {
    if s.plan.canBackup then BackupSource else DestroySource
  }

  /** The VM is stopped only when the record says it is running; the stop may be tried again. */
  predicate StopSourceStep(req: Request, s: State, t: State) {
    s.plan.source.Some? &&
    var stopped := VmStopped(s, s.plan.source.value);
    (|| t == At(s, Finished(Failed))
     || (s.status != Running && t == At(s, AfterStop(s)))
     || (s.status == Running && t == At(stopped, AfterStop(s)))
     || (s.status == Running && (t == At(stopped, Finished(Failed)) || (req.mode == Workflow && t == stopped))))
  }

  /** A failed backup is skipped under force; otherwise the migration is aborted. */
  predicate BackupStep(req: Request, s: State, t: State) {
    s.plan.source.Some? &&
    var h := s.plan.source.value;
    (|| (h in s.volumes
         && t == s.(backups := s.backups + [s.volumes[h]], snapshot := Some(s.volumes[h]), phase := DestroySource))
     || (req.force && t == At(s, DestroySource))
     || (!req.force && (req.mode == Workflow || s.status == Running) && t == At(s, AbortRestore))
     || (!req.force && req.mode == Synchronous && s.status != Running && t == At(s, Finished(Failed))))
  }

  predicate AbortStep(s: State, t: State) {
    t == At(s, Finished(Failed)) || t == At(s.(status := Stopped), Finished(Failed))
  }

  /** Agent errors are ignored. The workflow gives up when it cannot find the host, the handler skips the destroy. */
  predicate DestroySourceStep(req: Request, s: State, t: State) {
    s.plan.source.Some? &&
    (|| (req.mode == Workflow && t == At(s, Finished(Failed)))
     || (t.phase == ReleaseSource && DestroyTried(s, At(t, s.phase), s.plan.source.value)))
  }

  function Released(s: State): State {
    if s.host.Some? && s.host == s.plan.source then s.(host := None, status := Stopped) else s
  }

  predicate ReleaseStep(req: Request, s: State, t: State) {
    || t == At(s, Finished(Failed)) || t == At(Released(s), Finished(Failed))
    || (req.mode == Workflow && t == Released(s))
    || t == At(Released(s), StartTarget)
  }

  ghost predicate StartTargetStep(req: Request, s: State, t: State) {
    || (req.mode == Workflow && s.host == Some(req.target) && t == At(s, WaitTarget))
    || (t.phase == WaitTarget && Started(s, At(t, s.phase), req.target))
    || (t.phase == Finished(Failed) && StartFailed(s, At(t, s.phase), req.target))
  }

  function AfterWait(s: State): Phase {
    if s.snapshot.None? then Finished(Migrated) else StopForRestore
  }

  /** Waiting changes the status; a failed wait is cleaned up by the workflow, or behind the handler's back by its poller. */
  predicate WaitTargetStep(req: Request, s: State, t: State) {
    || t == At(s.(status := t.status), AfterWait(s))
    || (req.mode == Workflow && t == At(s.(status := t.status), CleanupTarget))
    || (req.mode == Synchronous && Cleaned(s, t))
  }

  /** The VM is destroyed on the machine's host, if that works, and the machine is taken off it, if that works. */
  predicate Cleaned(s: State, t: State) {
    t.phase == Finished(Failed) && (t.host == s.host || t.host == None)
    && var back := t.(phase := s.phase, host := s.host, status := s.status);
       if s.host.Some? then DestroyTried(s, back, s.host.value) else back == s
  }

  /** The stop goes on without the agent when the host cannot be looked up or counts as unreachable:
      the machine is then marked stopped while its VM may still run. */
  predicate StopForRestoreStep(req: Request, s: State, t: State) {
    var back := t.(phase := s.phase, status := s.status);
    && (back == s || (s.host.Some? && back == VmStopped(s, s.host.value)))
    && (t.status == s.status || t.status == Stopped)
    && (|| t.phase == Finished(Failed)
        || (req.mode == Workflow && t.phase == s.phase)
        || (t.phase == WaitStopped && t.status == Stopped))
  }

  predicate WaitStoppedStep(s: State, t: State) {
    t == At(s, Finished(Failed)) || (s.status == Stopped && t == At(s, RestoreBackup))
  }

  /** The backup goes to the machine's current host; a failed download may leave anything there. */
  predicate RestoreStep(s: State, t: State) {
    || t == At(s, Finished(Failed))
    || (s.host.Some? && t == At(s.(volumes := t.volumes), Finished(Failed))
        && t.volumes - {s.host.value} == s.volumes - {s.host.value})
    || (s.host.Some? && s.snapshot.Some? && t == At(s.(volumes := s.volumes[s.host.value := s.snapshot.value]), RestartRestored))
  }

  /** Without a target, a start keeps the host the machine is assigned to. */
  ghost predicate RestartStep(s: State, t: State) {
    || t == At(s, Finished(Failed))
    || (exists h: HostId :: (s.host.Some? ==> s.host == Some(h)) && t.phase == WaitRestored && Started(s, At(t, s.phase), h))
    || (exists h: HostId :: (s.host.Some? ==> s.host == Some(h)) && t.phase == Finished(Failed) && StartFailed(s, At(t, s.phase), h))
  }

  predicate WaitRestoredStep(req: Request, s: State, t: State) {
    || t == At(s.(status := t.status), Finished(MigratedAndRestored))
    || (req.mode == Workflow && t == At(s.(status := t.status), CleanupTarget))
    || (req.mode == Synchronous && t == At(s.(status := t.status), Finished(Failed)))
  }

  ghost predicate Work(req: Request, s: State, t: State) {
    match s.phase
    case Prepare => PrepareStep(req, s, t)
    case StopSource => StopSourceStep(req, s, t)
    case BackupSource => BackupStep(req, s, t)
    case AbortRestore => AbortStep(s, t)
    case DestroySource => DestroySourceStep(req, s, t)
    case ReleaseSource => ReleaseStep(req, s, t)
    case StartTarget => StartTargetStep(req, s, t)
    case WaitTarget => WaitTargetStep(req, s, t)
    case CleanupTarget => Cleaned(s, t)
    case StopForRestore => StopForRestoreStep(req, s, t)
    case WaitStopped => WaitStoppedStep(s, t)
    case RestoreBackup => RestoreStep(s, t)
    case RestartRestored => RestartStep(s, t)
    case WaitRestored => WaitRestoredStep(req, s, t)
    case Finished(_) => false
  }

  ghost predicate Step(req: Request, s: State, t: State) {
    Work(req, s, t) || Around(s, t)
  }

  /** The machine's VM, if any, is on the host its record names, and what it last wrote is on the volume there. */
  predicate Init(s: State) {
    && s.phase == Prepare && s.snapshot.None? && s.backups == [] && s.source == s.host
    && (forall h :: h in s.known ==> s.host == Some(h)) && s.live <= s.known && s.live <= s.volumes.Keys
    && s.last == if s.host.Some? && s.host.value in s.volumes then Some(s.volumes[s.host.value]) else None
  }

  ghost predicate Run(req: Request, ss: seq<State>) {
    && ss != [] && Init(ss[0])
    && forall i :: 0 <= i < |ss| - 1 ==> StepAt(req, ss, i)
  }

  ghost predicate StepAt(req: Request, ss: seq<State>, i: nat)
    requires i + 1 < |ss|
  {
    Step(req, ss[i], ss[i + 1])
  }
}
