/** The migration workflow and the synchronous handler as they are written, each proved to be a run of the phases. */
module MigrationRun {
  import opened Common
  import opened Migration
  import opened MigrationSafety

  const PollErrorThreshold := 30

  const StepRetries := 3

  datatype Verdict = SeenRunning | SeenError | SeenStopped | GaveUp

  /** What one poll of the agent shows. */
  datatype Poll = PollFailed | NotSettled | Settled(verdict: Verdict)

  function TrailingErrors(polls: seq<Poll>): nat {
    if polls != [] && Last(polls).PollFailed? then 1 + TrailingErrors(polls[..|polls| - 1]) else 0
  }

  /** Nothing among these polls ends the wait. */
  predicate GoesOn(polls: seq<Poll>) {
    polls == [] || (!Last(polls).Settled? && TrailingErrors(polls) < PollErrorThreshold && GoesOn(polls[..|polls| - 1]))
  }

  /** The wait ends with the poll that settles it, with the thirtieth error in a row, or when `allowed` polls are made. */
  predicate EndsWith(polls: seq<Poll>, allowed: nat, verdict: Verdict) {
    if verdict.GaveUp? && |polls| == allowed && GoesOn(polls) then true
    else
      && polls != [] && |polls| <= allowed && GoesOn(polls[..|polls| - 1])
      && (Last(polls) == Settled(verdict) || (verdict.GaveUp? && TrailingErrors(polls) == PollErrorThreshold))
  }

  lemma OnePollMore(polls: seq<Poll>, p: Poll)
    ensures (polls + [p])[..|polls|] == polls && Last(polls + [p]) == p
    ensures TrailingErrors(polls + [p]) == if p.PollFailed? then TrailingErrors(polls) + 1 else 0
  {
    assert (polls + [p])[..|polls|] == polls;
  }

  lemma {:induction false} ErrorsInARow(polls: seq<Poll>)
    ensures TrailingErrors(polls) <= |polls|
    ensures forall k :: |polls| - TrailingErrors(polls) <= k < |polls| ==> polls[k].PollFailed?
  {
    if polls != [] && Last(polls).PollFailed? {
      ErrorsInARow(polls[..|polls| - 1]);
    }
  }

  lemma {:induction false} NothingSettledYet(polls: seq<Poll>)
    requires GoesOn(polls)
    ensures forall k :: 0 <= k < |polls| ==> !polls[k].Settled?
  {
    if polls != [] {
      NothingSettledYet(polls[..|polls| - 1]);
    }
  }

  /** Giving up before the deadline means that the last thirty polls all failed, and no poll before was decisive. */
  lemma GivesUpForAReason(polls: seq<Poll>, allowed: nat)
    requires EndsWith(polls, allowed, GaveUp) && |polls| < allowed
    requires polls != [] ==> Last(polls) != Settled(GaveUp)
    ensures |polls| >= 30
    ensures forall k :: |polls| - 30 <= k < |polls| ==> polls[k].PollFailed?
    ensures forall k :: 0 <= k < |polls| ==> !polls[k].Settled?
  {
    ErrorsInARow(polls);
    NothingSettledYet(polls[..|polls| - 1]);
  }

  method AnyNat() returns (d: nat)
  {
    var x: int := *;
    d := if x < 0 then -x else x;
  }

  lemma CleanedIsStep(req: Request, s: State, t: State)
    requires Cleaned(s, t) && (s.phase == CleanupTarget || (s.phase == WaitTarget && req.mode == Synchronous))
    ensures Step(req, s, t)
  {
    assert Work(req, s, t);
  }

  lemma PrepareIsStep(req: Request, s: State, t: State)
    requires s.phase == Prepare && PrepareStep(req, s, t)
    ensures Step(req, s, t)
  {
    assert Work(req, s, t);
  }

  lemma StopSourceIsStep(req: Request, s: State, t: State)
    requires s.phase == StopSource && StopSourceStep(req, s, t)
    ensures Step(req, s, t)
  {
    assert Work(req, s, t);
  }

  lemma BackupIsStep(req: Request, s: State, t: State)
    requires s.phase == BackupSource && BackupStep(req, s, t)
    ensures Step(req, s, t)
  {
    assert Work(req, s, t);
  }

  lemma ReleaseIsStep(req: Request, s: State, t: State)
    requires s.phase == ReleaseSource && ReleaseStep(req, s, t)
    ensures Step(req, s, t)
  {
    assert Work(req, s, t);
  }

  lemma StopForRestoreIsStep(req: Request, s: State, t: State)
    requires s.phase == StopForRestore && StopForRestoreStep(req, s, t)
    ensures Step(req, s, t)
  {
    assert Work(req, s, t);
  }

  lemma RestartIsStep(req: Request, s: State, t: State)
    requires s.phase == RestartRestored && RestartStep(s, t)
    ensures Step(req, s, t)
  {
    assert Work(req, s, t);
  }

  lemma DestroySourceIsStep(req: Request, s: State, t: State)
    requires s.phase == DestroySource && DestroySourceStep(req, s, t)
    ensures Step(req, s, t)
  {
    assert Work(req, s, t);
  }

  lemma RestoreIsStep(req: Request, s: State, t: State)
    requires s.phase == RestoreBackup && RestoreStep(s, t)
    ensures Step(req, s, t)
  {
    assert Work(req, s, t);
  }

  /** What a start is recorded as: a machine that has a host is started again, one without is provisioned. */
  function Pending(host: Option<HostId>): Status {
    if host.Some? then Starting else Provisioning
  }

  /** A request is turned down exactly when something it needs cannot be had, when it goes to the machine's own host, when
      there is a source that cannot be backed up and nothing is forced, or when the handler finds a running machine
      without a host. */
  predicate TurnedDown(req: Request, unavailable: bool, host: Option<HostId>, status: Status) {
    || unavailable
    || host == Some(req.target)
    || (host.Some? && !req.backupsOn && !req.force)
    || (req.mode == Synchronous && host.None? && status == Running)
  }

  /** The workflow engine repeats a stop or a release that fails, at most three times; the handler does not. */
  function AttemptsAllowed(req: Request): nat {
    if req.mode == Workflow then 4 else 1
  }

  class Mover {
    const req: Request

    // The workflow's progress and its variables.
    var phase: Phase
    var plan: Plan
    var snapshot: Option<Data>

    // The machine's record, the hosts, and the backup store.
    var status: Status
    var host: Option<HostId>
    var live: set<HostId>
    var known: set<HostId>
    var volumes: map<HostId, Data>
    var backups: seq<Data>

    ghost var source: Option<HostId>
    ghost var last: Option<Data>
    ghost var booted: Option<Data>
    ghost var trace: seq<State>
    ghost var smooth: bool          // no outside call has failed so far

    ghost function Now(): State
      reads this
    {
      State(phase, plan, snapshot, status, host, live, known, volumes, backups, source, last, booted)
    }

    /** Everything that has happened so far is a run that ends here. */
    ghost predicate Valid()
      reads this
    {
      Run(req, trace) && Last(trace) == Now()
    }

    constructor (req: Request, status: Status, host: Option<HostId>, live: set<HostId>, known: set<HostId>, volumes: map<HostId, Data>)
      requires (forall h :: h in known ==> host == Some(h)) && live <= known && live <= volumes.Keys
      ensures Valid() && phase == Prepare && this.req == req && |trace| == 1 && smooth
      ensures this.status == status && this.host == host && this.live == live && this.known == known && this.volumes == volumes
    {
      this.req := req;
      phase, plan, snapshot := Prepare, Plan(None, false), None;
      this.status, this.host, this.live, this.known, this.volumes, backups := status, host, live, known, volumes, [];
      source, booted := host, None;
      last := if host.Some? && host.value in volumes then Some(volumes[host.value]) else None;
      smooth := true;
      new;
      trace := [Now()];
    }

    /** Enters the present state into the books. */
    ghost method Log(before: State)
      requires Run(req, trace) && Last(trace) == before && Step(req, before, Now())
      modifies this`trace
      ensures Valid() && trace == old(trace) + [Now()]
    {
      ghost var was := trace;
      trace := trace + [Now()];
      forall i | 0 <= i < |trace| - 1
        ensures StepAt(req, trace, i)
      {
        if i < |was| - 1 {
          assert StepAt(req, was, i);
        }
      }
    }

    /** Whatever VMs and agents do on their own. */
    method Meanwhile()
      requires Valid()
      modifies this
      ensures Valid() && old(trace) <= trace
      ensures phase == old(phase) && plan == old(plan) && snapshot == old(snapshot)
      ensures status == old(status) && host == old(host) && backups == old(backups)
      ensures known == old(known) && booted == old(booted) && smooth == old(smooth)
    {
      var n := AnyNat();
      for i := 0 to n
        invariant Valid() && old(trace) <= trace && known == old(known) && booted == old(booted) && smooth == old(smooth)
        invariant phase == old(phase) && plan == old(plan) && snapshot == old(snapshot)
        invariant status == old(status) && host == old(host) && backups == old(backups)
      {
        ghost var before := Now();
        var h := AnyNat();
        var d := AnyNat();
        if h in live {
          if * {
            volumes := volumes[h := d];
            last := if source == Some(h) then Some(d) else last;
            assert Now() == Wrote(before, h, d);
          } else {
            live := live - {h};
          }
          Log(before);
        } else if h !in known && host != Some(h) {
          volumes := volumes - {h};
          Log(before);
        }
      }
    }

    // ---- The operations the workflow relies on ----

    method StopVM(h: HostId) returns (err: bool)
      modifies this`live, this`known
      ensures Now() == VmStopped(old(Now()), h) || (err && Now() == old(Now()))
    {
      err := *;
      if * {
        live, known := live - {h}, known - {h};
      } else {
        err := true;
      }
    }

    method DestroyVM(h: HostId) returns (ghost well: bool)
      modifies this`live, this`known, this`volumes
      ensures DestroyTried(old(Now()), Now(), h)
      ensures well ==> h !in live && h !in known
    {
      var reached: bool, forgotten: bool, deleted: bool := *, *, *;
      well := reached && forgotten && deleted;
      if reached {
        live := live - {h};
        if forgotten {
          if deleted && h in known {
            volumes := volumes - {h};
          }
          known := known - {h};
        }
      }
    }

    method BackupVM(h: HostId) returns (r: Option<Data>)
      ensures r.Some? ==> h in volumes && r.value == volumes[h]
    {
      var works: bool := *;
      r := if works && h in volumes then Some(volumes[h]) else None;
    }

    /** The agent reuses the volume it finds, unless it still listed the VM. */
    method CreateVM(h: HostId) returns (err: bool, ghost d: Data)
      modifies this`live, this`known, this`volumes, this`booted
      ensures !err ==>
                && (h in old(volumes) && h !in old(known) ==> d == old(volumes[h]))
                && Now() == old(Now()).(live := old(live) + {h}, known := old(known) + {h}, volumes := old(volumes)[h := d],
                                        booted := Some(d))
      ensures err ==> StartFailed(old(Now()), Now(), h)
    {
      var found := AnyNat();
      if h in volumes && h !in known {
        found := volumes[h];
      }
      d := found;
      err := *;
      var created: bool := *;
      if !err || created {
        live, known, volumes := live + {h}, known + {h}, volumes[h := found];
      }
      if !err {
        booted := Some(d);
      }
    }

    /** The runtime service's start: place the machine, clear leftovers on the host, create the VM. */
    method StartOn(h: HostId) returns (err: bool)
      modifies this`status, this`host, this`live, this`known, this`volumes, this`booted
      ensures !err ==> Started(old(Now()), Now(), h) && status == Pending(old(host))
      ensures err ==> StartFailed(old(Now()), Now(), h)
      ensures err ==>
                || (host == old(host) && status == old(status))                        // refused
                || (host == Some(h) && status == Pending(old(host)))                   // placed, but not prepared
                || (host == (if old(host).Some? then Some(h) else None) && status == Stopped)
    {
      err := *;
      if err {
        return;
      }
      var isRestart := host.Some?;
      host := Some(h);
      status := if isRestart then Starting else Provisioning;
      err := *;
      if err {
        return;   // placed, but its seed or its pairing could not be prepared
      }
      ghost var d;
      err, d := ReplaceVM(h);
      if err {
        if !isRestart {
          host := None;
        }
        status := Stopped;
      } else {
        assert Now() == VmBooted(old(Now()), h, d, status);
      }
    }

    /** Whatever VM the host still has goes first. */
    method ReplaceVM(h: HostId) returns (err: bool, ghost d: Data)
      modifies this`live, this`known, this`volumes, this`booted
      ensures !err ==>
                && (h in old(volumes) && h !in old(known) ==> d == old(volumes[h]))
                && Now() == old(Now()).(live := old(live) + {h}, known := old(known) + {h}, volumes := old(volumes)[h := d],
                                        booted := Some(d))
      ensures err ==> StartFailed(old(Now()), Now(), h)
    {
      ghost var _ := DestroyVM(h);
      err, d := CreateVM(h);
    }

    method RestoreVM(h: HostId, d: Data) returns (err: bool)
      modifies this`volumes
      ensures !err ==> volumes == old(volumes)[h := d]
      ensures err ==> volumes - {h} == old(volumes) - {h}
    {
      err := *;
      var rest := AnyNat();
      if !err {
        volumes := volumes[h := d];
      } else if * {
        volumes := volumes[h := rest];
      }
    }

    /** The runtime service's stop. A host that cannot be looked up is skipped, an unreachable one forgiven. */
    method StopWithOperation() returns (err: bool, ghost well: bool)
      modifies this`live, this`known, this`status
      ensures var back := Now().(status := old(status));
              back == old(Now()) || (old(host).Some? && back == VmStopped(old(Now()), old(host).value))
      ensures status == Stopped || (err && status == old(status))
      ensures well ==> !err && (host.Some? ==> host.value !in known)
    {
      var hostFound: bool := *;
      well := hostFound;
      if host.Some? && hostFound {
        var stopErr := StopVM(host.value);
        var reachable: bool := *;
        if stopErr && reachable {
          return true, false;
        }
        well := !stopErr;
      }
      var released: bool := *;
      if !released {
        return true, false;
      }
      status := Stopped;
      err := *;
      well := well && !err;
    }

    /** Polls the agent until the VM has settled; thirty errors in a row, or the deadline, end the wait. What settles
        it is what the agent has at that moment. `allowed` is how many polls fit in before the deadline. */
    method PollUntilSettled(h: HostId, allowed: nat) returns (verdict: Verdict, polls: seq<Poll>)
      requires Valid()
      modifies this
      ensures Valid() && old(trace) <= trace
      ensures phase == old(phase) && plan == old(plan) && snapshot == old(snapshot)
      ensures status == old(status) && host == old(host) && backups == old(backups)
      ensures EndsWith(polls, allowed, verdict)
      ensures Settled(GaveUp) !in polls
      ensures match verdict
              case SeenRunning => h in live
              case SeenError => h !in live && h in known
              case SeenStopped => h !in live && h !in known
              case GaveUp => true
      ensures smooth == old(smooth) && known == old(known) && booted == old(booted)
    {
      var consecutiveErrors := 0;
      polls := [];
      for i := 0 to allowed
        invariant Valid() && old(trace) <= trace
        invariant phase == old(phase) && plan == old(plan) && snapshot == old(snapshot)
        invariant status == old(status) && host == old(host) && backups == old(backups)
        invariant |polls| == i && GoesOn(polls) && Settled(GaveUp) !in polls
        invariant smooth == old(smooth) && known == old(known) && booted == old(booted)
        invariant consecutiveErrors == TrailingErrors(polls) < PollErrorThreshold
      {
        var poll := PollAgent(h);
        OnePollMore(polls, poll);
        polls := polls + [poll];
        if poll.PollFailed? {
          consecutiveErrors := consecutiveErrors + 1;
          if consecutiveErrors >= PollErrorThreshold {
            return GaveUp, polls;
          }
        } else {
          consecutiveErrors := 0;
          if poll.Settled? {
            return poll.verdict, polls;
          }
        }
        Meanwhile();
      }
      return GaveUp, polls;
    }

    /** One question to the agent. It may stay unanswered, or find the VM still starting; an answer that settles the wait
        is true. */
    method PollAgent(h: HostId) returns (poll: Poll)
      ensures poll.Settled? ==>
                && !poll.verdict.GaveUp? && (poll.verdict.SeenRunning? <==> h in live)
                && (!poll.verdict.SeenRunning? ==> (poll.verdict.SeenError? <==> h in known))
    {
      var err: bool, settled: bool := *, *;
      if err {
        return PollFailed;
      }
      if !settled {
        return NotSettled;                 // still being created, or still starting
      }
      return Settled(if h in live then SeenRunning else if h in known then SeenError else SeenStopped);
    }

    /** `waitForMachineRunningOnHost`: returns the error and the status that is recorded. The wait succeeds exactly when
        the VM is seen running, its route is set and its placement activated; a status that is not stored stays. */
    method WaitForMachineRunningOnHost(h: HostId)
      returns (err: bool, recorded: Status, ghost verdict: Verdict, ghost routed: bool, ghost activated: bool, ghost stored: bool)
      requires Valid()
      modifies this
      ensures Valid() && old(trace) <= trace
      ensures phase == old(phase) && plan == old(plan) && snapshot == old(snapshot)
      ensures booted == old(booted) && status == old(status) && host == old(host) && backups == old(backups)
      ensures err <==> !(verdict == SeenRunning && routed && activated)
      ensures !err ==> h in live
      ensures !stored ==> recorded == status
      ensures stored ==>
                recorded == match verdict
                            case SeenRunning => if !routed then Error else if activated then Running else status
                            case SeenStopped => Stopped
                            case _ => Error
      ensures smooth ==> old(smooth) && !err && recorded == Running
    {
      var allowed := AnyNat();
      var seen, polls := PollUntilSettled(h, allowed);
      var route: bool, activate: bool, store: bool := *, *, *;
      match seen {
        case SeenRunning =>
          if !route {
            err, recorded := true, Error;
          } else if !activate {
            err, recorded := true, status;
          } else {
            err, recorded := false, Running;
          }
        case SeenError => err, recorded := true, Error;
        case SeenStopped => err, recorded := true, Stopped;
        case GaveUp => err, recorded := true, Error;
      }
      if !store {
        recorded := status;
      }
      verdict, routed, activated, stored := seen, route, activate, store;
      smooth := smooth && !err && store;
    }

    // ---- The phases ----

    method PrepareMigration() returns (err: bool, ghost unavailable: bool)
      requires Valid() && phase == Prepare
      modifies this
      ensures Valid() && old(trace) <= trace
      ensures if err then phase == Finished(Failed) else phase == if plan.source.Some? then StopSource else StartTarget
      ensures host == old(host) && status == old(status)
      ensures err <==> TurnedDown(req, unavailable, host, status)
      ensures !err ==> plan.source == host && (plan.canBackup <==> host.Some? && req.backupsOn)
      ensures smooth == (old(smooth) && !unavailable) && snapshot == old(snapshot) && backups == old(backups)
    {
      ghost var before := Now();
      err, unavailable := Consider();
      PrepareIsStep(req, before, Now());
      Log(before);
    }

    /** Accepts the request and settles the plan, or turns it down. */
    method Consider() returns (err: bool, ghost unavailable: bool)
      requires phase == Prepare
      modifies this`phase, this`plan, this`smooth
      ensures PrepareStep(req, old(Now()), Now())
      ensures if err then phase == Finished(Failed) else phase == if plan.source.Some? then StopSource else StartTarget
      ensures err <==> TurnedDown(req, unavailable, host, status)
      ensures !err ==> plan.source == host && (plan.canBackup <==> host.Some? && req.backupsOn)
      ensures smooth == (old(smooth) && !unavailable)
    {
      var missing: bool := *;
      unavailable := missing;
      smooth := smooth && !missing;
      var canBackup := host.Some? && req.backupsOn;
      err := missing || host == Some(req.target) || (host.Some? && !canBackup && !req.force)
             || (req.mode == Synchronous && status == Running && host.None?);
      if err {
        phase := Finished(Failed);
      } else {
        plan := Plan(host, canBackup);
        phase := if host.Some? then StopSource else StartTarget;
      }
    }

    /** One attempt to stop the VM, if the record says that it runs. */
    method TryStopSource(lastTry: bool) returns (err: bool)
      requires Valid() && phase == StopSource && plan.source.Some? && (lastTry || req.mode == Workflow)
      modifies this
      ensures Valid() && old(trace) <= trace && plan == old(plan) && status == old(status)
      ensures phase == if !err then (if plan.canBackup then BackupSource else DestroySource)
                       else if lastTry then Finished(Failed) else StopSource
      ensures host == old(host) && snapshot == old(snapshot)
      ensures smooth ==> old(smooth) && !err
    {
      ghost var before := Now();
      err := StopSourceOnce(lastTry);
      if Now() != before {
        StopSourceIsStep(req, before, Now());
        Log(before);
      }
    }

    method StopSourceOnce(lastTry: bool) returns (err: bool)
      requires phase == StopSource && plan.source.Some? && (lastTry || req.mode == Workflow)
      modifies this`phase, this`live, this`known, this`smooth
      ensures StopSourceStep(req, old(Now()), Now()) || Now() == old(Now())
      ensures phase == if !err then (if plan.canBackup then BackupSource else DestroySource)
                       else if lastTry then Finished(Failed) else StopSource
      ensures smooth ==> old(smooth) && !err
    {
      err := *;
      if !err && status == Running {
        err := StopVM(plan.source.value);
      }
      smooth := smooth && !err;
      if !err || lastTry {
        phase := if err then Finished(Failed) else if plan.canBackup then BackupSource else DestroySource;
      }
    }

    /** Stops the source; the workflow retries. */
    method StopSourceMachine() returns (err: bool, ghost attempts: nat)
      requires Valid() && phase == StopSource && plan.source.Some?
      modifies this
      ensures Valid() && old(trace) <= trace && plan == old(plan) && status == old(status)
      ensures if err then phase == Finished(Failed) else phase == if plan.canBackup then BackupSource else DestroySource
      ensures host == old(host) && snapshot == old(snapshot) && (smooth ==> old(smooth) && !err)
      ensures 1 <= attempts && if err then attempts == AttemptsAllowed(req) else attempts <= AttemptsAllowed(req)
    {
      var retries := if req.mode == Workflow then StepRetries else 0;
      Meanwhile();
      err := TryStopSource(retries == 0);
      attempts := 1;
      while err && retries > 0
        invariant Valid() && old(trace) <= trace && plan == old(plan) && status == old(status)
        invariant host == old(host) && snapshot == old(snapshot) && (smooth ==> old(smooth) && !err)
        invariant 1 <= attempts && attempts + retries == AttemptsAllowed(req)
        invariant retries >= 0 && (retries > 0 ==> req.mode == Workflow)
        invariant phase == if !err then (if plan.canBackup then BackupSource else DestroySource)
                           else if retries == 0 then Finished(Failed) else StopSource
      {
        retries := retries - 1;
        Meanwhile();
        err := TryStopSource(retries == 0);
        attempts := attempts + 1;
      }
    }

    method CreateMigrationBackup() returns (r: Option<Data>)
      requires plan.source.Some?
      modifies this`backups
      ensures r.Some? ==> plan.source.value in volumes && r.value == volumes[plan.source.value] && backups == old(backups) + [r.value]
      ensures r.None? ==> backups == old(backups)
    {
      var lookedUp: bool, saved: bool := *, *;
      r := None;
      if lookedUp {
        r := BackupVM(plan.source.value);
        if r.Some? && saved {
          backups := backups + [r.value];
        } else {
          r := None;
        }
      }
    }

    method TryBackup() returns (done: bool)
      requires Valid() && phase == BackupSource && plan.source.Some?
      modifies this
      ensures Valid() && old(trace) <= trace && plan == old(plan) && status == old(status)
      ensures phase == if done then DestroySource else BackupSource
      ensures req.force ==> done
      ensures host == old(host) && (smooth ==> old(smooth) && done && snapshot.Some?)
    {
      ghost var before := Now();
      done := BackupOnce();
      if done {
        BackupIsStep(req, before, Now());
        Log(before);
      }
    }

    method BackupOnce() returns (done: bool)
      requires phase == BackupSource && plan.source.Some?
      modifies this`phase, this`backups, this`snapshot, this`smooth
      ensures if done then BackupStep(req, old(Now()), Now()) && phase == DestroySource else Now() == old(Now())
      ensures req.force ==> done
      ensures smooth ==> old(smooth) && done && snapshot.Some?
    {
      var record := CreateMigrationBackup();
      smooth := smooth && record.Some?;
      done := record.Some? || req.force;
      if done {
        snapshot := if record.Some? then record else snapshot;
        phase := DestroySource;
      }
    }

    /** Backs the stopped source up; without a backup it goes on under force only. */
    method Backup(sourceStoppedDirectly: bool) returns (err: bool, ghost attempts: nat)
      requires Valid() && phase == BackupSource && plan.source.Some?
      requires req.mode == Synchronous ==> sourceStoppedDirectly == (status == Running)
      modifies this
      ensures Valid() && old(trace) <= trace && plan == old(plan)
      ensures if err then phase == Finished(Failed) else phase == DestroySource
      ensures smooth ==> old(smooth) && !err && snapshot.Some? && host == old(host)
      ensures err ==> attempts == if req.mode == Workflow then 2 else 1
    {
      Meanwhile();
      var done := TryBackup();
      attempts := 1;
      if !done && req.mode == Workflow {
        Meanwhile();
        done := TryBackup();
        attempts := 2;
      }
      err := !done;
      if err {
        GiveUpBackup(sourceStoppedDirectly);
      }
    }

    method GiveUpBackup(sourceStoppedDirectly: bool)
      requires Valid() && phase == BackupSource && plan.source.Some? && !req.force
      requires req.mode == Synchronous ==> sourceStoppedDirectly == (status == Running)
      modifies this
      ensures Valid() && old(trace) <= trace && plan == old(plan) && phase == Finished(Failed) && smooth == old(smooth)
    {
      ghost var before := Now();
      phase := if req.mode == Workflow || sourceStoppedDirectly then AbortRestore else Finished(Failed);
      Log(before);
      if req.mode == Workflow || sourceStoppedDirectly {
        FinalizeStoppedSource();
      }
    }

    method FinalizeStoppedSource()
      requires Valid() && phase == AbortRestore
      modifies this
      ensures Valid() && old(trace) <= trace && phase == Finished(Failed) && plan == old(plan) && smooth == old(smooth)
    {
      Meanwhile();
      ghost var before := Now();
      var softStopped: bool := *;
      if softStopped {
        status := Stopped;
      }
      phase := Finished(Failed);
      Log(before);
    }

    method DestroySourceMachine() returns (err: bool)
      requires Valid() && phase == DestroySource && plan.source.Some?
      modifies this
      ensures Valid() && old(trace) <= trace && plan == old(plan)
      ensures if err then phase == Finished(Failed) else phase == ReleaseSource
      ensures host == old(host) && snapshot == old(snapshot)
      ensures smooth ==> old(smooth) && !err && plan.source.value !in known + live
    {
      ghost var before := Now();
      err := DestroySourceOnce();
      DestroySourceIsStep(req, before, Now());
      Log(before);
    }

    /** Whether the agent destroyed the VM is not looked at; the workflow gives up when it cannot find the host. */
    method DestroySourceOnce() returns (err: bool)
      requires phase == DestroySource && plan.source.Some?
      modifies this`phase, this`live, this`known, this`volumes, this`smooth
      ensures DestroySourceStep(req, old(Now()), Now())
      ensures if err then phase == Finished(Failed) else phase == ReleaseSource
      ensures smooth ==> old(smooth) && !err && plan.source.value !in known + live
    {
      ghost var before := Now();
      var noHost: bool := *;
      err := noHost && req.mode == Workflow;
      ghost var well := false;
      if !noHost {
        well := DestroyVM(plan.source.value);
      }
      smooth := smooth && well;
      phase := if err then Finished(Failed) else ReleaseSource;
      assert DestroyTried(before, At(Now(), DestroySource), plan.source.value);
    }

    method TryRelease(lastTry: bool) returns (err: bool)
      requires Valid() && phase == ReleaseSource && plan.source.Some? && (lastTry || req.mode == Workflow)
      modifies this
      ensures Valid() && old(trace) <= trace && plan == old(plan)
      ensures phase == if !err then StartTarget else if lastTry then Finished(Failed) else ReleaseSource
      ensures snapshot == old(snapshot) && (smooth ==> old(smooth) && !err)
      ensures smooth ==> if old(host) == plan.source then host == None && status == Stopped else host == old(host)
    {
      ghost var before := Now();
      err := ReleaseOnce(lastTry);
      if Now() != before {
        ReleaseIsStep(req, before, Now());
        Log(before);
      }
    }

    /** The release may have been committed although it is answered with an error. */
    method ReleaseOnce(lastTry: bool) returns (err: bool)
      requires phase == ReleaseSource && plan.source.Some? && (lastTry || req.mode == Workflow)
      modifies this`phase, this`host, this`status, this`smooth
      ensures ReleaseStep(req, old(Now()), Now()) || Now() == old(Now())
      ensures phase == if !err then StartTarget else if lastTry then Finished(Failed) else ReleaseSource
      ensures smooth ==> old(smooth) && !err
      ensures smooth ==> if old(host) == plan.source then host == None && status == Stopped else host == old(host)
    {
      var committed: bool := *;
      err := *;
      smooth := smooth && !err;
      if (committed || !err) && host == plan.source {
        host, status := None, Stopped;
      }
      if !err || lastTry {
        phase := if err then Finished(Failed) else StartTarget;
      }
    }

    /** Takes the machine off its source; the workflow retries. */
    method ReleaseSourceMachine() returns (err: bool, ghost attempts: nat)
      requires Valid() && phase == ReleaseSource && plan.source.Some?
      modifies this
      ensures Valid() && old(trace) <= trace && plan == old(plan)
      ensures if err then phase == Finished(Failed) else phase == StartTarget
      ensures snapshot == old(snapshot) && (smooth ==> old(smooth) && !err)
      ensures smooth ==> if old(host) == plan.source then host == None && status == Stopped else host == old(host)
      ensures 1 <= attempts && if err then attempts == AttemptsAllowed(req) else attempts <= AttemptsAllowed(req)
    {
      var retries := if req.mode == Workflow then StepRetries else 0;
      Meanwhile();
      err := TryRelease(retries == 0);
      attempts := 1;
      while err && retries > 0
        invariant Valid() && old(trace) <= trace && plan == old(plan)
        invariant snapshot == old(snapshot) && (smooth ==> old(smooth) && !err)
        invariant smooth ==> if old(host) == plan.source then host == None && status == Stopped else host == old(host)
        invariant 1 <= attempts && attempts + retries == AttemptsAllowed(req)
        invariant retries >= 0 && (retries > 0 ==> req.mode == Workflow)
        invariant phase == if !err then StartTarget else if retries == 0 then Finished(Failed) else ReleaseSource
      {
        retries := retries - 1;
        Meanwhile();
        err := TryRelease(retries == 0);
        attempts := attempts + 1;
      }
    }

    method StartOnTarget() returns (err: bool)
      requires Valid() && phase == StartTarget
      modifies this
      ensures Valid() && old(trace) <= trace && snapshot == old(snapshot)
      ensures if err then phase == Finished(Failed) else phase == WaitTarget
      ensures !err ==> host == Some(req.target)
      ensures smooth ==> old(smooth) && !err
    {
      Meanwhile();
      ghost var before := Now();
      if req.mode == Workflow && host == Some(req.target) {
        err := false;
      } else {
        err := StartOn(req.target);
      }
      smooth := smooth && !err;
      ghost var there := Now();
      phase := if err then Finished(Failed) else WaitTarget;
      assert At(Now(), StartTarget) == there;
      Log(before);
    }

    /** The workflow's wait; a machine that does not come up is cleaned up. */
    method WaitForTarget() returns (err: bool)
      requires Valid() && phase == WaitTarget && req.mode == Workflow
      modifies this
      ensures Valid() && old(trace) <= trace && snapshot == old(snapshot)
      ensures if err then phase == Finished(Failed) else phase == if snapshot.None? then Finished(Migrated) else StopForRestore
      ensures !err ==> host == old(host)
      ensures smooth ==> old(smooth) && !err && status == Running
    {
      var recorded: Status;
      ghost var v, r, a, w;
      err, recorded, v, r, a, w := WaitForMachineRunningOnHost(req.target);
      SettleTarget(err, recorded);
      if err {
        CleanupFailedTarget();
      }
    }

    method SettleTarget(err: bool, recorded: Status)
      requires Valid() && phase == WaitTarget && req.mode == Workflow
      modifies this
      ensures Valid() && old(trace) <= trace && snapshot == old(snapshot)
      ensures host == old(host) && smooth == old(smooth) && status == recorded
      ensures phase == if err then CleanupTarget else if snapshot.None? then Finished(Migrated) else StopForRestore
    {
      ghost var before := Now();
      status := recorded;
      phase := if err then CleanupTarget else if snapshot.None? then Finished(Migrated) else StopForRestore;
      Log(before);
    }

    method CleanupFailedTarget()
      requires Valid() && phase == CleanupTarget
      modifies this
      ensures Valid() && old(trace) <= trace && snapshot == old(snapshot) && phase == Finished(Failed) && smooth == old(smooth)
      ensures (host == None && status == Stopped) || (host == old(host) && status == old(status))
    {
      Meanwhile();
      ghost var before := Now();
      CleanTarget();
      CleanedIsStep(req, before, Now());
      Log(before);
    }

    method CleanTarget()
      modifies this`phase, this`status, this`host, this`live, this`known, this`volumes
      ensures Cleaned(old(Now()), Now()) && snapshot == old(snapshot)
      ensures (host == None && status == Stopped) || (host == old(host) && status == old(status))
    {
      ghost var before := Now();
      var loaded: bool, hostFound: bool, released: bool := *, *, *;
      if loaded && host.Some? {
        if hostFound {
          ghost var _ := DestroyVM(host.value);
        }
        if released {
          host, status := None, Stopped;
        }
      }
      phase := Finished(Failed);
      assert Now().(phase := before.phase, host := before.host, status := before.status)
          == before.(live := live, known := known, volumes := volumes);
    }

    /** The handler's wait: a poller in the background settles the machine's status, and cleans up what failed. */
    method AwaitPoller() returns (err: bool)
      requires Valid() && phase == WaitTarget && req.mode == Synchronous
      modifies this
      ensures Valid() && old(trace) <= trace && snapshot == old(snapshot)
      ensures if err then phase == Finished(Failed) else phase == if snapshot.None? then Finished(Migrated) else StopForRestore
      ensures if err then status == Error else host == old(host) && status == Running
      ensures smooth ==> old(smooth) && !err
    {
      Meanwhile();
      err := *;
      smooth := smooth && !err;
      if err {
        PollerCleansUp();
      } else {
        ghost var before := Now();
        status := Running;
        phase := if snapshot.None? then Finished(Migrated) else StopForRestore;
        Log(before);
      }
    }

    method PollerCleansUp()
      requires Valid() && phase == WaitTarget && req.mode == Synchronous
      modifies this
      ensures Valid() && old(trace) <= trace && snapshot == old(snapshot) && phase == Finished(Failed) && smooth == old(smooth)
      ensures status == Error
    {
      ghost var before := Now();
      StopFailedTarget();
      CleanedIsStep(req, before, Now());
      Log(before);
    }

    method StopFailedTarget()
      modifies this`phase, this`status, this`host, this`live, this`known
      ensures Cleaned(old(Now()), Now()) && snapshot == old(snapshot) && status == Error
    {
      ghost var before := Now();
      var released: bool, stopped: bool := *, *;
      if host.Some? && stopped {
        live, known := live - {host.value}, known - {host.value};
      }
      if released {
        host := None;
      }
      status := Error;
      phase := Finished(Failed);
      assert Now().(phase := before.phase, host := before.host, status := before.status)
          == before.(live := live, known := known);
    }

    method TryStopForRestore(lastTry: bool) returns (err: bool)
      requires Valid() && phase == StopForRestore && (lastTry || req.mode == Workflow)
      modifies this
      ensures Valid() && old(trace) <= trace && snapshot == old(snapshot)
      ensures phase == if !err then WaitStopped else if lastTry then Finished(Failed) else StopForRestore
      ensures host == old(host) && (!err ==> status == Stopped)
      ensures smooth ==> old(smooth) && !err && (old(status) != Stopped && host.Some? ==> host.value !in known)
    {
      ghost var before := Now();
      err := StopOnce(lastTry);
      StopForRestoreIsStep(req, before, Now());
      Log(before);
    }

    /** A machine that is already stopped is left alone by the workflow. */
    method StopOnce(lastTry: bool) returns (err: bool)
      requires phase == StopForRestore && (lastTry || req.mode == Workflow)
      modifies this`phase, this`status, this`live, this`known, this`smooth
      ensures StopForRestoreStep(req, old(Now()), Now())
      ensures phase == if !err then WaitStopped else if lastTry then Finished(Failed) else StopForRestore
      ensures !err ==> status == Stopped
      ensures smooth ==> old(smooth) && !err && (old(status) != Stopped && host.Some? ==> host.value !in known)
    {
      ghost var before := Now();
      err := *;
      ghost var well := !err;
      if !err && !(req.mode == Workflow && status == Stopped) {
        err, well := StopWithOperation();
      }
      smooth := smooth && well;
      ghost var there := Now();
      phase := if !err then WaitStopped else if lastTry then Finished(Failed) else StopForRestore;
      assert Now().(phase := before.phase, status := before.status) == there.(status := before.status);
    }

    /** Stops the machine for the restore; the workflow retries. */
    method StopMachineForRestore() returns (err: bool, ghost attempts: nat)
      requires Valid() && phase == StopForRestore
      modifies this
      ensures Valid() && old(trace) <= trace && snapshot == old(snapshot)
      ensures if err then phase == Finished(Failed) else phase == WaitStopped
      ensures host == old(host) && (!err ==> status == Stopped)
      ensures smooth ==> old(smooth) && !err && (old(status) != Stopped && host.Some? ==> host.value !in known)
      ensures 1 <= attempts && if err then attempts == AttemptsAllowed(req) else attempts <= AttemptsAllowed(req)
    {
      var retries := if req.mode == Workflow then StepRetries else 0;
      Meanwhile();
      err := TryStopForRestore(retries == 0);
      attempts := 1;
      while err && retries > 0
        invariant Valid() && old(trace) <= trace && snapshot == old(snapshot)
        invariant host == old(host) && (!err ==> status == Stopped)
        invariant smooth ==> old(smooth) && !err && (old(status) != Stopped && host.Some? ==> host.value !in known)
        invariant 1 <= attempts && attempts + retries == AttemptsAllowed(req)
        invariant retries >= 0 && (retries > 0 ==> req.mode == Workflow)
        invariant phase == if !err then WaitStopped else if retries == 0 then Finished(Failed) else StopForRestore
      {
        retries := retries - 1;
        Meanwhile();
        err := TryStopForRestore(retries == 0);
        attempts := attempts + 1;
      }
    }

    method WaitForStopped() returns (err: bool)
      requires Valid() && phase == WaitStopped
      modifies this
      ensures Valid() && old(trace) <= trace && snapshot == old(snapshot)
      ensures if err then phase == Finished(Failed) else phase == RestoreBackup
      ensures host == old(host) && status == old(status) && known == old(known)
      ensures smooth ==> old(smooth) && (status == Stopped ==> !err)
    {
      Meanwhile();
      ghost var before := Now();
      var timedOut: bool := *;
      err := timedOut || status != Stopped;
      smooth := smooth && !timedOut;
      phase := if err then Finished(Failed) else RestoreBackup;
      Log(before);
    }

    /** Restores the snapshot on the host the machine's record names now. */
    method RestoreSnapshot() returns (err: bool)
      requires Valid() && phase == RestoreBackup && snapshot.Some?
      modifies this
      ensures Valid() && old(trace) <= trace && snapshot == old(snapshot)
      ensures if err then phase == Finished(Failed) else phase == RestartRestored
      ensures host == old(host) && status == old(status) && known == old(known)
      ensures smooth ==> old(smooth) && (host.Some? ==> !err)
    {
      Meanwhile();
      ghost var before := Now();
      err := RestoreOnce();
      RestoreIsStep(req, before, Now());
      Log(before);
      Meanwhile();
    }

    method RestoreOnce() returns (err: bool)
      requires phase == RestoreBackup && snapshot.Some?
      modifies this`phase, this`volumes, this`smooth
      ensures RestoreStep(old(Now()), Now())
      ensures if err then phase == Finished(Failed) else phase == RestartRestored
      ensures smooth ==> old(smooth) && (host.Some? ==> !err)
    {
      err := *;
      if host.None? {
        err := true;
      } else if !err {
        err := RestoreVM(host.value, snapshot.value);
      }
      smooth := smooth && !err;
      phase := if err then Finished(Failed) else RestartRestored;
    }

    /** Starts the machine again without naming a host. */
    method RestartMachine() returns (err: bool, startedOn: HostId)
      requires Valid() && phase == RestartRestored
      modifies this
      ensures Valid() && old(trace) <= trace
      ensures if err then phase == Finished(Failed) else phase == WaitRestored
      ensures !err ==> host == Some(startedOn) && (old(host).Some? ==> host == old(host))
      ensures smooth ==> old(smooth) && !err
      ensures !err && req.target !in old(known) ==> booted == old(snapshot) && snapshot == old(snapshot)
    {
      RunKeepsLate(req, trace, |trace| - 1);
      ghost var before := Now();
      err, startedOn := RestartOnce();
      RestartIsStep(req, before, Now());
      Log(before);
    }

    method RestartOnce() returns (err: bool, startedOn: HostId)
      requires phase == RestartRestored
      modifies this`phase, this`status, this`host, this`live, this`known, this`volumes, this`booted, this`smooth
      ensures RestartStep(old(Now()), Now())
      ensures if err then phase == Finished(Failed) else phase == WaitRestored && Started(old(Now()), At(Now(), RestartRestored), startedOn)
      ensures !err ==> host == Some(startedOn) && (old(host).Some? ==> host == old(host))
      ensures smooth ==> old(smooth) && !err
    {
      startedOn := AnyNat();
      if host.Some? {
        startedOn := host.value;
      }
      err := StartOn(startedOn);
      smooth := smooth && !err;
      ghost var there := Now();
      phase := if err then Finished(Failed) else WaitRestored;
      assert At(Now(), RestartRestored) == there;
    }

    method WaitForRestored(startedOn: HostId) returns (err: bool)
      requires Valid() && phase == WaitRestored
      modifies this
      ensures Valid() && old(trace) <= trace && phase == Finished(if err then Failed else MigratedAndRestored)
      ensures !err ==> host == old(host) && snapshot == old(snapshot) && booted == old(booted)
      ensures smooth ==> old(smooth) && !err && status == Running
    {
      var recorded: Status;
      ghost var v, r, a, w;
      err, recorded, v, r, a, w := WaitForMachineRunningOnHost(startedOn);
      SettleRestored(err, recorded);
      if err && req.mode == Workflow {
        CleanupFailedTarget();
      }
    }

    method SettleRestored(err: bool, recorded: Status)
      requires Valid() && phase == WaitRestored
      modifies this
      ensures Valid() && old(trace) <= trace
      ensures phase == if !err then Finished(MigratedAndRestored)
                       else if req.mode == Workflow then CleanupTarget else Finished(Failed)
      ensures host == old(host) && snapshot == old(snapshot) && booted == old(booted)
      ensures status == recorded && smooth == old(smooth)
    {
      ghost var before := Now();
      status := recorded;
      phase := if !err then Finished(MigratedAndRestored) else if req.mode == Workflow then CleanupTarget else Finished(Failed);
      Log(before);
    }

    // ---- The two migrations ----

    /** Stop, back up, destroy and release the source. */
    method LeaveSource() returns (err: bool)
      requires Valid() && phase == StopSource && plan.source.Some?
      modifies this
      ensures Valid() && old(trace) <= trace
      ensures if err then phase == Finished(Failed) else phase == StartTarget
      ensures smooth ==> old(smooth) && !err
      ensures smooth && old(host) == old(plan).source ==> host == None && status == Stopped
      ensures smooth && old(snapshot).None? ==> (snapshot.Some? <==> old(plan).canBackup)
    {
      ghost var attempts;
      var sourceStoppedDirectly := status == Running;
      err, attempts := StopSourceMachine();
      if err {
        return;
      }
      if plan.canBackup {
        err, attempts := Backup(sourceStoppedDirectly);
        if err {
          return;
        }
      }
      err := DropSource();
    }

    method DropSource() returns (err: bool)
      requires Valid() && phase == DestroySource && plan.source.Some?
      modifies this
      ensures Valid() && old(trace) <= trace
      ensures if err then phase == Finished(Failed) else phase == StartTarget
      ensures smooth ==> old(smooth) && !err && snapshot == old(snapshot)
      ensures smooth && old(host) == old(plan).source ==> host == None && status == Stopped
    {
      Meanwhile();
      err := DestroySourceMachine();
      if !err {
        ghost var attempts;
        err, attempts := ReleaseSourceMachine();
      }
    }

    /** Stop, restore and restart on the target. */
    method RestoreOnTarget() returns (outcome: Outcome)
      requires Valid() && phase == StopForRestore && snapshot.Some?
      modifies this
      ensures Valid() && old(trace) <= trace && phase == Finished(outcome)
      ensures smooth ==> old(smooth)
      ensures smooth && old(host) == Some(req.target) && old(status) == Running ==>
                outcome == MigratedAndRestored && host == Some(req.target) && status == Running && booted == snapshot == old(snapshot)
    {
      var err := StopAndRestore();
      if err {
        return Failed;
      }
      var startedOn;
      err, startedOn := RestartMachine();
      if err {
        return Failed;
      }
      err := WaitForRestored(startedOn);
      return if err then Failed else MigratedAndRestored;
    }

    method StopAndRestore() returns (err: bool)
      requires Valid() && phase == StopForRestore && snapshot.Some?
      modifies this
      ensures Valid() && old(trace) <= trace
      ensures if err then phase == Finished(Failed) else phase == RestartRestored
      ensures snapshot == old(snapshot) && host == old(host)
      ensures smooth ==> old(smooth)
      ensures smooth && host.Some? ==> !err && (old(status) != Stopped ==> host.value !in known)
    {
      ghost var attempts;
      err, attempts := StopMachineForRestore();
      if err {
        return;
      }
      err := WaitForStopped();
      if err {
        return;
      }
      err := RestoreSnapshot();
    }

    /** `runMigrationWorkflow` and, with `req.mode == Synchronous`, the handler that does without a workflow engine:
        whatever fails, and whatever happens around them, they are a run of the phases that finishes. A request that is
        refused changes nothing; one that is accepted moves the machine when no call to the outside fails, and restores
        what was backed up if there was anything to back up. */
    method Migrate() returns (outcome: Outcome, ghost unavailable: bool)
      requires Valid() && phase == Prepare
      modifies this
      ensures Valid() && old(trace) <= trace && phase == Finished(outcome)
      ensures TurnedDown(req, unavailable, old(host), old(status)) ==>
                outcome == Failed && host == old(host) && status == old(status) && backups == old(backups)
      ensures smooth && !TurnedDown(req, unavailable, old(host), old(status)) ==>
                && outcome == (if old(host).Some? && req.backupsOn then MigratedAndRestored else Migrated)
                && host == Some(req.target) && status == Running
                && (outcome == MigratedAndRestored ==> snapshot.Some? && booted == snapshot)
      ensures old(StatusTrue(Now())) && |old(trace)| == 1 ==>
                SingleHomed(Now()) && (!req.force ==> NoLoss(Now()))
    {
      NothingSavedAtFirst();
      outcome, unavailable := MigratePhases();
      if StatusTrue(trace[0]) {
        RunKeepsInv(req, trace, |trace| - 1);
        InvMeansSingleHomed(req, Now());
        if !req.force {
          InvMeansNoLoss(req, Now());
        }
      }
    }

    lemma NothingSavedAtFirst()
      requires Valid() && phase == Prepare
      ensures snapshot.None?
    {
      OnlyForceSkipsTheBackup(req, trace, |trace| - 1);
    }

    /** Off the source, if there is one, and onto the target. */
    method ReachTarget() returns (err: bool, ghost unavailable: bool)
      requires Valid() && phase == Prepare && snapshot.None?
      modifies this
      ensures Valid() && old(trace) <= trace
      ensures if err then phase == Finished(Failed) else phase == WaitTarget
      ensures TurnedDown(req, unavailable, old(host), old(status)) ==>
                err && host == old(host) && status == old(status) && backups == old(backups)
      ensures smooth ==> old(smooth) && (!TurnedDown(req, unavailable, old(host), old(status)) ==> !err)
      ensures smooth && !err ==> host == Some(req.target) && (snapshot.Some? <==> old(host).Some? && req.backupsOn)
    {
      Meanwhile();
      err, unavailable := PrepareMigration();
      if err {
        return;
      }
      if plan.source.Some? {
        err := LeaveSource();
        if err {
          return;
        }
      }
      err := StartOnTarget();
    }

    method MigratePhases() returns (outcome: Outcome, ghost unavailable: bool)
      requires Valid() && phase == Prepare && snapshot.None?
      modifies this
      ensures Valid() && old(trace) <= trace && phase == Finished(outcome)
      ensures TurnedDown(req, unavailable, old(host), old(status)) ==>
                outcome == Failed && host == old(host) && status == old(status) && backups == old(backups)
      ensures smooth && !TurnedDown(req, unavailable, old(host), old(status)) ==>
                && outcome == (if old(host).Some? && req.backupsOn then MigratedAndRestored else Migrated)
                && host == Some(req.target) && status == Running
                && (outcome == MigratedAndRestored ==> snapshot.Some? && booted == snapshot)
    {
      var err;
      err, unavailable := ReachTarget();
      if err {
        return Failed, unavailable;
      }
      if req.mode == Workflow {
        err := WaitForTarget();
      } else {
        err := AwaitPoller();
      }
      if err {
        return Failed, unavailable;
      }
      if snapshot.None? {
        return Migrated, unavailable;
      }
      outcome := RestoreOnTarget();
    }
  }
}
