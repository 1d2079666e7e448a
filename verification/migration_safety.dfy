/** What every migration keeps: no data is lost, the machine is live on one host only, and what is restored is
    what was backed up. */
module MigrationSafety {
  import opened Common
  import opened Migration

  /** The source's latest contents are held by its volume or by a recorded backup. */
  predicate NoLoss(s: State) {
    s.last.Some? ==>
      || (s.source.Some? && s.source.value in s.volumes && s.volumes[s.source.value] == s.last.value)
      || s.last.value in s.backups
  }

  predicate SingleHomed(s: State) {
    forall g, h :: g in s.live && h in s.live ==> g == h
  }

  /** If the source VM runs, the record says so. */
  predicate StatusTrue(s: State) {
    s.source.Some? && s.source.value in s.live ==> s.status == Running
  }

  // ---- The invariant ----

  predicate OnlyOn(hosts: set<HostId>, h: Option<HostId>) {
    forall g :: g in hosts ==> h == Some(g)
  }

  /** The source's volume is as the machine left it, and the machine is still assigned there. */
  predicate Untouched(s: State) {
    s.host == s.source
    && s.last == if s.source.Some? && s.source.value in s.volumes then Some(s.volumes[s.source.value]) else None
  }

  predicate BeforeStop(s: State) {
    && Untouched(s) && StatusTrue(s) && s.snapshot.None?
    && OnlyOn(s.known, s.source) && OnlyOn(s.live, s.source)
  }

  /** The source is quiet for good, and a snapshot, if there is one, holds what it left. */
  predicate Quiet(req: Request, s: State) {
    && OnlyOn(s.live, Some(req.target)) && s.source != Some(req.target)
    && (s.snapshot.Some? ==> s.snapshot == s.last && s.snapshot.value in s.backups)
    && (s.source.None? ==> s.last.None?)
  }

  predicate Kept(req: Request, s: State) {
    s.source.Some? && !req.force ==> s.snapshot.Some?
  }

  predicate OnTarget(req: Request, s: State) {
    s.host == Some(req.target)
  }

  predicate Planned(req: Request, s: State) {
    s.plan == Plan(s.source, s.source.Some? && req.backupsOn) && s.source != Some(req.target)
    && (s.source.Some? && !req.backupsOn ==> req.force)
  }

  predicate Inv(req: Request, s: State) {
    match s.phase
    case Prepare => BeforeStop(s)
    case StopSource => BeforeStop(s) && Planned(req, s) && s.source.Some?
    case BackupSource =>
      Untouched(s) && s.snapshot.None? && s.live == {} && Planned(req, s) && s.source.Some?
    case AbortRestore => Untouched(s) && s.snapshot.None? && s.live == {}
    case DestroySource => Quiet(req, s) && Kept(req, s) && Planned(req, s) && s.live == {} && s.host == s.source && s.source.Some?
    case ReleaseSource => Quiet(req, s) && Kept(req, s) && Planned(req, s) && s.live == {} && s.host in {s.source, None}
    case StartTarget => Quiet(req, s) && Kept(req, s) && s.live == {} && s.host == None
    case Finished(_) => (BeforeStopped(s) || (Quiet(req, s) && Kept(req, s)))
    case _ => Quiet(req, s) && Kept(req, s) && OnTarget(req, s)
  }

  /** Ended before anything was destroyed. */
  predicate BeforeStopped(s: State) {
    Untouched(s) && s.snapshot.None? && OnlyOn(s.live, s.source)
  }

  lemma AroundKeepsInv(req: Request, s: State, t: State)
    requires Inv(req, s) && Around(s, t)
    ensures Inv(req, t)
  {
  }

  lemma PrepareKeepsInv(req: Request, s: State, t: State)
    requires Inv(req, s) && s.phase == Prepare && Work(req, s, t)
    ensures Inv(req, t)
  {
  }

  lemma StopSourceKeepsInv(req: Request, s: State, t: State)
    requires Inv(req, s) && s.phase == StopSource && Work(req, s, t)
    ensures Inv(req, t)
  {
  }

  lemma BackupKeepsInv(req: Request, s: State, t: State)
    requires Inv(req, s) && s.phase == BackupSource && Work(req, s, t)
    ensures Inv(req, t)
  {
  }

  lemma AbortKeepsInv(req: Request, s: State, t: State)
    requires Inv(req, s) && s.phase == AbortRestore && Work(req, s, t)
    ensures Inv(req, t)
  {
  }

  lemma DestroyKeepsInv(req: Request, s: State, t: State)
    requires Inv(req, s) && s.phase == DestroySource && Work(req, s, t)
    ensures Inv(req, t)
  {
  }

  lemma ReleaseKeepsInv(req: Request, s: State, t: State)
    requires Inv(req, s) && s.phase == ReleaseSource && Work(req, s, t)
    ensures Inv(req, t)
  {
  }

  lemma StartTargetKeepsInv(req: Request, s: State, t: State)
    requires Inv(req, s) && s.phase == StartTarget && Work(req, s, t)
    ensures Inv(req, t)
  {
  }

  lemma CleanedKeepsInv(req: Request, s: State, t: State)
    requires Quiet(req, s) && Kept(req, s) && OnTarget(req, s) && Cleaned(s, t)
    ensures Inv(req, t)
  {
  }

  lemma WaitTargetKeepsInv(req: Request, s: State, t: State)
    requires Inv(req, s) && s.phase == WaitTarget && Work(req, s, t)
    ensures Inv(req, t)
  {
    if Cleaned(s, t) {
      CleanedKeepsInv(req, s, t);
    }
  }

  lemma CleanupKeepsInv(req: Request, s: State, t: State)
    requires Inv(req, s) && s.phase == CleanupTarget && Work(req, s, t)
    ensures Inv(req, t)
  {
    CleanedKeepsInv(req, s, t);
  }

  lemma StopForRestoreKeepsInv(req: Request, s: State, t: State)
    requires Inv(req, s) && s.phase == StopForRestore && Work(req, s, t)
    ensures Inv(req, t)
  {
  }

  lemma WaitStoppedKeepsInv(req: Request, s: State, t: State)
    requires Inv(req, s) && s.phase == WaitStopped && Work(req, s, t)
    ensures Inv(req, t)
  {
  }

  lemma RestoreKeepsInv(req: Request, s: State, t: State)
    requires Inv(req, s) && s.phase == RestoreBackup && Work(req, s, t)
    ensures Inv(req, t)
  {
  }

  lemma RestartKeepsInv(req: Request, s: State, t: State)
    requires Inv(req, s) && s.phase == RestartRestored && Work(req, s, t)
    ensures Inv(req, t)
  {
  }

  lemma WaitRestoredKeepsInv(req: Request, s: State, t: State)
    requires Inv(req, s) && s.phase == WaitRestored && Work(req, s, t)
    ensures Inv(req, t)
  {
  }

  lemma WorkKeepsInv(req: Request, s: State, t: State)
    requires Inv(req, s) && Work(req, s, t)
    ensures Inv(req, t)
  {
    match s.phase
    case Prepare => PrepareKeepsInv(req, s, t);
    case StopSource => StopSourceKeepsInv(req, s, t);
    case BackupSource => BackupKeepsInv(req, s, t);
    case AbortRestore => AbortKeepsInv(req, s, t);
    case DestroySource => DestroyKeepsInv(req, s, t);
    case ReleaseSource => ReleaseKeepsInv(req, s, t);
    case StartTarget => StartTargetKeepsInv(req, s, t);
    case WaitTarget => WaitTargetKeepsInv(req, s, t);
    case CleanupTarget => CleanupKeepsInv(req, s, t);
    case StopForRestore => StopForRestoreKeepsInv(req, s, t);
    case WaitStopped => WaitStoppedKeepsInv(req, s, t);
    case RestoreBackup => RestoreKeepsInv(req, s, t);
    case RestartRestored => RestartKeepsInv(req, s, t);
    case WaitRestored => WaitRestoredKeepsInv(req, s, t);
    case Finished(_) =>
  }

  lemma {:induction false} RunKeepsInv(req: Request, ss: seq<State>, i: nat)
    requires Run(req, ss) && StatusTrue(ss[0]) && i < |ss|
    ensures Inv(req, ss[i])
  {
    if i > 0 {
      RunKeepsInv(req, ss, i - 1);
      assert StepAt(req, ss, i - 1);
      if Around(ss[i - 1], ss[i]) {
        AroundKeepsInv(req, ss[i - 1], ss[i]);
      } else {
        WorkKeepsInv(req, ss[i - 1], ss[i]);
      }
    }
  }

  lemma InvMeansNoLoss(req: Request, s: State)
    requires Inv(req, s) && !req.force
    ensures NoLoss(s)
  {
  }

  lemma InvMeansSingleHomed(req: Request, s: State)
    requires Inv(req, s)
    ensures SingleHomed(s)
  {
  }

  // ---- Exactly when it is safe ----

  ghost predicate NothingLostFrom(req: Request, s: State) {
    forall ss: seq<State>, i: nat :: Run(req, ss) && ss[0] == s && i < |ss| ==> NoLoss(ss[i])
  }

  ghost predicate SingleHomedFrom(req: Request, s: State) {
    forall ss: seq<State>, i: nat :: Run(req, ss) && ss[0] == s && i < |ss| ==> SingleHomed(ss[i])
  }

  /** The run that goes wrong: the record denies that the source VM runs, so nothing stops it. */
  predicate Denied(req: Request, s: State) {
    Acceptable(req, s) && !StatusTrue(s)
  }

  function BackedUp(req: Request, s: State, h: HostId): State
    requires h in s.volumes
  {
    s.(plan := PlanFor(req, s), backups := [s.volumes[h]], snapshot := Some(s.volumes[h]), phase := DestroySource)
  }

  /** A write after the backup is lost when the source is destroyed. */
  lemma LossyRun(req: Request, s: State) returns (ss: seq<State>)
    requires Init(s) && Denied(req, s) && req.backupsOn
    ensures Run(req, ss) && ss[0] == s && !NoLoss(Last(ss))
  {
    var h := s.host.value;
    var planned := s.(plan := PlanFor(req, s), phase := StopSource);
    var skipped := At(planned, BackupSource);
    var saved := BackedUp(req, s, h);
    var wrote := Wrote(saved, h, s.volumes[h] + 1);
    var gone := At(VmDestroyed(wrote, h), ReleaseSource);
    ss := [s, planned, skipped, saved, wrote, gone];
    assert Work(req, s, planned) && Work(req, planned, skipped);
    assert Work(req, skipped, saved) by {
      assert saved == skipped.(backups := skipped.backups + [s.volumes[h]], snapshot := Some(s.volumes[h]), phase := DestroySource);
    }
    assert Around(saved, wrote);
    assert At(gone, DestroySource) == VmDestroyed(wrote, h);
    assert Work(req, wrote, gone);
    assert StepAt(req, ss, 0) && StepAt(req, ss, 1) && StepAt(req, ss, 2) && StepAt(req, ss, 3) && StepAt(req, ss, 4);
  }

  /** From any state a migration may start in, unforced runs never lose data if and only if
      the record does not deny a running source VM (or the request is turned down at once). */
  lemma NothingLostIff(req: Request, s: State)
    requires Init(s) && !req.force
    ensures NothingLostFrom(req, s) <==> !Denied(req, s)
  {
    if Denied(req, s) {
      var ss := LossyRun(req, s);
      assert !NoLoss(ss[|ss| - 1]);
    } else {
      forall ss: seq<State>, i: nat | Run(req, ss) && ss[0] == s && i < |ss|
        ensures NoLoss(ss[i])
      {
        if StatusTrue(s) {
          RunKeepsInv(req, ss, i);
          InvMeansNoLoss(req, ss[i]);
        } else {
          RefusedRun(req, ss, i);
        }
      }
    }
  }

  predicate Refused(s: State) {
    (s.phase == Prepare || s.phase == Finished(Failed)) && Untouched(s) && OnlyOn(s.known, s.source) && s.live <= s.known
  }

  /** A request that is not acceptable leaves the machine alone. */
  lemma {:induction false} RefusedRun(req: Request, ss: seq<State>, i: nat)
    requires Run(req, ss) && !Acceptable(req, ss[0]) && i < |ss|
    ensures Refused(ss[i]) && ss[i].host == ss[0].host
  {
    if i > 0 {
      RefusedRun(req, ss, i - 1);
      assert StepAt(req, ss, i - 1);
    }
  }

  /** The same run, with an agent that refuses the destroy: the machine ends up live on both hosts. */
  lemma DoubleHomedRun(req: Request, s: State) returns (ss: seq<State>)
    requires Init(s) && Denied(req, s)
    ensures Run(req, ss) && ss[0] == s && !SingleHomed(Last(ss))
  {
    var h := s.host.value;
    var planned := s.(plan := PlanFor(req, s), phase := StopSource);
    ss := [s, planned];
    assert Work(req, s, planned);
    var kept;
    if req.backupsOn {
      var skipped := At(planned, BackupSource);
      kept := BackedUp(req, s, h);
      assert kept == skipped.(backups := skipped.backups + [s.volumes[h]], snapshot := Some(s.volumes[h]), phase := DestroySource);
      assert Work(req, planned, skipped) && Work(req, skipped, kept);
      ss := [s, planned, skipped, kept];
    } else {
      kept := At(planned, DestroySource);
      assert Work(req, planned, kept);
      ss := [s, planned, kept];
    }
    forall i | 0 <= i < |ss| - 1
      ensures StepAt(req, ss, i)
    {
    }
    var tail := MovedToTarget(req, kept);
    StepsJoin(req, ss, tail);
    ss := ss + tail;
  }

  lemma StepsJoin(req: Request, a: seq<State>, b: seq<State>)
    requires a != [] && b != [] && Step(req, Last(a), b[0])
    requires forall i :: 0 <= i < |a| - 1 ==> StepAt(req, a, i)
    requires forall i :: 0 <= i < |b| - 1 ==> StepAt(req, b, i)
    ensures forall i :: 0 <= i < |a + b| - 1 ==> StepAt(req, a + b, i)
    ensures Last(a + b) == Last(b) && (a + b)[0] == a[0]
  {
    forall i | 0 <= i < |a + b| - 1
      ensures StepAt(req, a + b, i)
    {
      if i < |a| - 1 {
        assert StepAt(req, a, i);
      } else if i >= |a| {
        assert StepAt(req, b, i - |a|);
      }
    }
  }

  /** From any state a migration may start in, forced or not, the machine is never live on two hosts
      if and only if the record does not deny a running source VM (or the request is turned down at once). */
  lemma SingleHomedIff(req: Request, s: State)
    requires Init(s)
    ensures SingleHomedFrom(req, s) <==> !Denied(req, s)
  {
    if Denied(req, s) {
      var ss := DoubleHomedRun(req, s);
      assert !SingleHomed(ss[|ss| - 1]);
    } else {
      forall ss: seq<State>, i: nat | Run(req, ss) && ss[0] == s && i < |ss|
        ensures SingleHomed(ss[i])
      {
        if StatusTrue(s) {
          RunKeepsInv(req, ss, i);
          InvMeansSingleHomed(req, ss[i]);
        } else {
          RefusedRun(req, ss, i);
        }
      }
    }
  }

  // ---- Only force destroys without a backup ----

  predicate Backed(req: Request, s: State) {
    match s.phase
    case Prepare => s.host == s.source && s.snapshot.None?
    case StopSource => Planned(req, s) && s.snapshot.None?
    case BackupSource => Planned(req, s) && s.snapshot.None?
    case AbortRestore => true
    case Finished(outcome) => outcome == Failed || (Kept(req, s) && Recorded(s))
    case _ => Kept(req, s) && Recorded(s)
  }

  predicate Recorded(s: State) {
    s.snapshot.Some? ==> s.snapshot.value in s.backups
  }

  lemma AroundKeepsBacked(req: Request, s: State, t: State)
    requires Backed(req, s) && Around(s, t)
    ensures Backed(req, t)
  {
  }

  lemma WorkKeepsBacked(req: Request, s: State, t: State)
    requires Backed(req, s) && Work(req, s, t)
    ensures Backed(req, t)
  {
    match s.phase
    case Prepare =>
    case StopSource =>
    case BackupSource =>
    case _ => LaterKeepsBacked(req, s, t);
  }

  lemma LaterKeepsTheBackup(req: Request, s: State, t: State)
    requires Work(req, s, t) && s.phase !in {Prepare, StopSource, BackupSource}
    ensures t.source == s.source && t.snapshot == s.snapshot && t.backups == s.backups
  {
    match s.phase
    case DestroySource =>
    case ReleaseSource =>
    case StartTarget => StartKeepsTheBackup(req, s, t);
    case RestartRestored => StartKeepsTheBackup(req, s, t);
    case _ =>
  }

  lemma StartKeepsTheBackup(req: Request, s: State, t: State)
    requires Work(req, s, t) && s.phase in {StartTarget, RestartRestored}
    ensures t.source == s.source && t.snapshot == s.snapshot && t.backups == s.backups
  {
  }

  lemma NoWayBack(req: Request, s: State, t: State)
    requires Work(req, s, t) && s.phase !in {Prepare, StopSource, BackupSource}
    ensures t.phase !in {Prepare, StopSource, BackupSource}
    ensures s.phase == AbortRestore ==> t.phase == Finished(Failed)
  {
  }

  lemma LaterKeepsBacked(req: Request, s: State, t: State)
    requires Backed(req, s) && Work(req, s, t) && s.phase !in {Prepare, StopSource, BackupSource}
    ensures Backed(req, t)
  {
    LaterKeepsTheBackup(req, s, t);
    NoWayBack(req, s, t);
  }

  /** Whatever the record says, an unforced run passes the backup phase with a recorded backup only. */
  lemma {:induction false} OnlyForceSkipsTheBackup(req: Request, ss: seq<State>, i: nat)
    requires Run(req, ss) && i < |ss|
    ensures Backed(req, ss[i])
    ensures ss[i].phase == DestroySource && ss[i].source.Some? && ss[i].snapshot.None? ==> req.force
  {
    if i > 0 {
      OnlyForceSkipsTheBackup(req, ss, i - 1);
      assert StepAt(req, ss, i - 1);
      if Around(ss[i - 1], ss[i]) {
        AroundKeepsBacked(req, ss[i - 1], ss[i]);
      } else {
        WorkKeepsBacked(req, ss[i - 1], ss[i]);
      }
    }
  }

  // ---- What is restored ----

  predicate Faithful(req: Request, s: State) {
    match s.phase
    case StopForRestore => s.snapshot.Some?
    case WaitStopped => s.snapshot.Some?
    case RestoreBackup => s.snapshot.Some?
    case RestartRestored =>
      s.snapshot.Some? && req.target in s.volumes && s.volumes[req.target] == s.snapshot.value && req.target !in s.known + s.live
    case WaitRestored => s.snapshot.Some? && s.booted == s.snapshot
    case Finished(MigratedAndRestored) => s.snapshot.Some? && s.booted == s.snapshot && OnTarget(req, s)
    case _ => true
  }

  lemma AroundKeepsFaithful(req: Request, s: State, t: State)
    requires Inv(req, s) && Faithful(req, s) && Around(s, t)
    ensures Faithful(req, t)
  {
  }

  lemma WorkKeepsFaithful(req: Request, s: State, t: State)
    requires Inv(req, s) && Faithful(req, s) && Work(req, s, t)
    requires t.phase == RestartRestored ==> req.target !in t.known + t.live
    ensures Faithful(req, t)
  {
    if s.phase in {RestoreBackup, RestartRestored} {
      RestoringKeepsFaithful(req, s, t);
    } else {
      WaitingKeepsFaithful(req, s, t);
    }
  }

  lemma RestoringKeepsFaithful(req: Request, s: State, t: State)
    requires Inv(req, s) && Faithful(req, s) && Work(req, s, t) && s.phase in {RestoreBackup, RestartRestored}
    requires t.phase == RestartRestored ==> req.target !in t.known + t.live
    ensures Faithful(req, t)
  {
  }

  lemma WaitingKeepsFaithful(req: Request, s: State, t: State)
    requires Inv(req, s) && Faithful(req, s) && Work(req, s, t) && s.phase !in {RestoreBackup, RestartRestored}
    ensures Faithful(req, t)
  {
    match s.phase
    case WaitTarget =>
    case StopForRestore =>
    case WaitStopped =>
    case WaitRestored =>
    case _ =>
  }

  /** A run that ends migrated and restored has booted the machine, on the host its record names, from exactly
      what the source last wrote, provided the target's agent no longer lists the VM at any restart. */
  lemma {:induction false} RestoredIsWhatWasBackedUp(req: Request, ss: seq<State>, i: nat)
    requires Run(req, ss) && StatusTrue(ss[0]) && i < |ss|
    requires forall k :: 0 <= k < |ss| && ss[k].phase == RestartRestored ==> req.target !in ss[k].known
    ensures Faithful(req, ss[i])
    ensures ss[i].phase == Finished(MigratedAndRestored) ==>
              ss[i].host == Some(req.target) && ss[i].booted.Some? && ss[i].booted == ss[i].last
  {
    RunKeepsInv(req, ss, i);
    RunKeepsLate(req, ss, i);
    if i > 0 {
      RestoredIsWhatWasBackedUp(req, ss, i - 1);
      RunKeepsInv(req, ss, i - 1);
      assert StepAt(req, ss, i - 1);
      StepKeepsFaithful(req, ss[i - 1], ss[i]);
    }
    EndsFaithful(req, ss[i]);
  }

  lemma StepKeepsFaithful(req: Request, s: State, t: State)
    requires Inv(req, s) && Faithful(req, s) && Step(req, s, t)
    requires t.phase == RestartRestored ==> req.target !in t.known + t.live
    ensures Faithful(req, t)
  {
    if Around(s, t) {
      AroundKeepsFaithful(req, s, t);
    } else {
      WorkKeepsFaithful(req, s, t);
    }
  }

  lemma EndsFaithful(req: Request, s: State)
    requires Inv(req, s) && Faithful(req, s)
    ensures s.phase == Finished(MigratedAndRestored) ==>
              s.host == Some(req.target) && s.booted.Some? && s.booted == s.last
  {
  }

  /** When the agent still lists the VM, the restart destroys it together with the restored volume,
      and the run ends as restored all the same. */
  lemma SkippedStopLosesTheRestore(req: Request, s: State)
    returns (restarted: State, done: State)
    requires s.phase == RestartRestored && s.host == Some(req.target) && req.target in s.known && s.snapshot.Some?
    ensures Step(req, s, restarted) && Step(req, restarted, done)
    ensures done.phase == Finished(MigratedAndRestored) && done.booted.Some? && done.booted != s.snapshot
    ensures done.last == s.last && done.snapshot == s.snapshot
  {
    var there := VmBooted(s, req.target, s.snapshot.value + 1, Starting);
    restarted := At(there, WaitRestored);
    assert At(restarted, RestartRestored) == there && Started(s, there, req.target);
    assert Work(req, s, restarted);
    done := At(restarted, Finished(MigratedAndRestored));
    assert Work(req, restarted, done);
  }

  /** The migration is accepted and has something to back up and restore. */
  predicate Restorable(req: Request, s: State) {
    Acceptable(req, s) && s.host.Some? && req.backupsOn && s.host.value in s.volumes
  }

  /** Up to the recorded backup, by steps that all succeed. */
  lemma SavedSource(req: Request, s: State) returns (ss: seq<State>)
    requires Init(s) && Restorable(req, s)
    ensures Run(req, ss) && ss[0] == s
    ensures var t := Last(ss);
            && t.phase == DestroySource && t.host == s.host && t.plan == PlanFor(req, s)
            && t.snapshot == t.last && t.snapshot.Some?
  {
    var h := s.host.value;
    var planned := s.(plan := PlanFor(req, s), phase := StopSource);
    var stopped := At(if s.status == Running then VmStopped(planned, h) else planned, BackupSource);
    var saved := stopped.(backups := stopped.backups + [s.volumes[h]], snapshot := Some(s.volumes[h]), phase := DestroySource);
    assert Work(req, s, planned) && Work(req, planned, stopped);
    assert Work(req, stopped, saved);
    ss := [s, planned, stopped, saved];
    assert StepAt(req, ss, 0) && StepAt(req, ss, 1) && StepAt(req, ss, 2);
  }

  /** And from there to a VM on the target. */
  lemma MovedToTarget(req: Request, s: State) returns (tail: seq<State>)
    requires s.phase == DestroySource && s.host.Some? && s.host == s.plan.source && s.host != Some(req.target)
    ensures tail != [] && Step(req, s, tail[0])
    ensures forall i :: 0 <= i < |tail| - 1 ==> StepAt(req, tail, i)
    ensures var t := Last(tail);
            && t.phase == WaitTarget && t.host == Some(req.target) && req.target in t.known
            && t.snapshot == s.snapshot && t.last == s.last
            && (s.host.value in s.live ==> !SingleHomed(t))
  {
    var kept := At(s, ReleaseSource);
    var released := At(Released(kept), StartTarget);
    var d := if req.target in released.volumes then released.volumes[req.target] else 0;
    var there := VmBooted(released, req.target, d, Provisioning);
    var moved := At(there, WaitTarget);
    assert At(kept, DestroySource) == s;
    assert Work(req, s, kept) && Work(req, kept, released);
    assert At(moved, StartTarget) == there && Started(released, there, req.target);
    assert Work(req, released, moved);
    assert s.host.value in s.live ==> s.host.value in moved.live && req.target in moved.live;
    tail := [kept, released, moved];
    assert StepAt(req, tail, 0) && StepAt(req, tail, 1);
  }

  /** The stop for the restore marks the machine stopped without touching its VM. */
  lemma StopPassedOver(req: Request, s: State)
    requires s.phase == WaitTarget && s.snapshot.Some?
    ensures var arrived := At(s, StopForRestore);
            var skipped := At(arrived.(status := Stopped), WaitStopped);
            Step(req, s, arrived) && Step(req, arrived, skipped) && Step(req, skipped, At(skipped, RestoreBackup))
  {
    var arrived := At(s, StopForRestore);
    var skipped := At(arrived.(status := Stopped), WaitStopped);
    assert Work(req, s, arrived);
    assert skipped.(phase := arrived.phase, status := arrived.status) == arrived;
    assert Work(req, arrived, skipped) && Work(req, skipped, At(skipped, RestoreBackup));
  }

  lemma RestoredBesideTheVm(req: Request, s: State) returns (tail: seq<State>)
    requires s.phase == WaitTarget && s.host == Some(req.target) && req.target in s.known && s.snapshot.Some?
    ensures tail != [] && Step(req, s, tail[0])
    ensures forall i :: 0 <= i < |tail| - 1 ==> StepAt(req, tail, i)
    ensures var t := Last(tail);
            && t.phase == Finished(MigratedAndRestored) && t.booted.Some? && t.booted != s.snapshot
            && t.last == s.last && t.snapshot == s.snapshot
  {
    var arrived := At(s, StopForRestore);
    var skipped := At(arrived.(status := Stopped), WaitStopped);
    var ready := At(skipped, RestoreBackup);
    var restored := At(ready.(volumes := ready.volumes[req.target := s.snapshot.value]), RestartRestored);
    StopPassedOver(req, s);
    assert Work(req, ready, restored);
    var restarted, done := SkippedStopLosesTheRestore(req, restored);
    tail := [arrived, skipped, ready, restored, restarted, done];
    assert StepAt(req, tail, 0) && StepAt(req, tail, 1) && StepAt(req, tail, 2) && StepAt(req, tail, 3)
        && StepAt(req, tail, 4);
  }

  /** A whole run, from where a migration may start: the stop before the restore passes the VM over, and the run ends
      as restored with other contents than the machine had. */
  lemma LostRestoreRun(req: Request, s: State) returns (ss: seq<State>)
    requires Init(s) && Restorable(req, s)
    ensures Run(req, ss) && ss[0] == s && Last(ss).phase == Finished(MigratedAndRestored)
    ensures Last(ss).booted.Some? && Last(ss).booted != Last(ss).last && Last(ss).booted != Last(ss).snapshot
  {
    var front := SavedSource(req, s);
    var middle := MovedToTarget(req, Last(front));
    StepsJoin(req, front, middle);
    var tail := RestoredBesideTheVm(req, Last(middle));
    StepsJoin(req, front + middle, tail);
    ss := front + middle + tail;
  }

  predicate Restoring(phase: Phase) {
    || phase.StopForRestore? || phase.WaitStopped? || phase.RestoreBackup? || phase.RestartRestored? || phase.WaitRestored?
    || phase == Finished(MigratedAndRestored)
  }

  /** There is no backup, nor will there be. */
  predicate Unsaved(req: Request, s: State) {
    && s.snapshot.None? && !Restoring(s.phase)
    && (s.phase == Prepare ==> s.host == s.source && NothingToSave(req, s))
    && (s.phase == StopSource ==> s.plan == PlanFor(req, s) && s.host == s.source && NothingToSave(req, s))
    && (s.phase == BackupSource ==> s.plan.source == s.source && NothingToSave(req, s) && req.backupsOn)
  }

  predicate NothingToSave(req: Request, s: State) {
    s.source.None? || !req.backupsOn || (s.source.value !in s.volumes && s.source.value !in s.live)
  }

  lemma AroundKeepsUnsaved(req: Request, s: State, t: State)
    requires Unsaved(req, s) && Around(s, t)
    ensures Unsaved(req, t)
  {
  }

  lemma EarlyWorkKeepsUnsaved(req: Request, s: State, t: State)
    requires Unsaved(req, s) && Work(req, s, t) && s.phase in {Prepare, StopSource, BackupSource}
    ensures Unsaved(req, t)
  {
    match s.phase
    case Prepare =>
    case StopSource =>
    case BackupSource =>
  }

  lemma LaterWorkKeepsUnsaved(req: Request, s: State, t: State)
    requires Unsaved(req, s) && Work(req, s, t) && s.phase !in {Prepare, StopSource, BackupSource}
    ensures Unsaved(req, t)
  {
    LaterKeepsTheBackup(req, s, t);
    NoWayBack(req, s, t);
    match s.phase
    case AbortRestore =>
    case DestroySource =>
    case ReleaseSource =>
    case StartTarget =>
    case WaitTarget =>
    case CleanupTarget =>
    case Finished(_) =>
  }

  lemma StepKeepsUnsaved(req: Request, s: State, t: State)
    requires Unsaved(req, s) && Step(req, s, t)
    ensures Unsaved(req, t)
  {
    if Around(s, t) {
      AroundKeepsUnsaved(req, s, t);
    } else if s.phase in {Prepare, StopSource, BackupSource} {
      EarlyWorkKeepsUnsaved(req, s, t);
    } else {
      LaterWorkKeepsUnsaved(req, s, t);
    }
  }

  lemma {:induction false} RunWithoutBackup(req: Request, ss: seq<State>, i: nat)
    requires Run(req, ss) && Acceptable(req, ss[0]) && !Restorable(req, ss[0]) && i < |ss|
    ensures Unsaved(req, ss[i])
  {
    if i > 0 {
      RunWithoutBackup(req, ss, i - 1);
      assert StepAt(req, ss, i - 1);
      StepKeepsUnsaved(req, ss[i - 1], ss[i]);
    }
  }

  ghost predicate RestoresFrom(req: Request, s: State) {
    forall ss: seq<State> :: Run(req, ss) && ss[0] == s && Last(ss).phase == Finished(MigratedAndRestored) ==>
      Last(ss).booted == Last(ss).last
  }

  /** Ending as restored means restored, in all runs from a state a migration may start in, if and only if no run
      from it restores anything: the stop before the restore is never safe to skip, and may always be skipped. */
  lemma EveryRestoreIsFaithfulIff(req: Request, s: State)
    requires Init(s)
    ensures RestoresFrom(req, s) <==> !Restorable(req, s)
  {
    if Restorable(req, s) {
      var ss := LostRestoreRun(req, s);
      assert Last(ss).booted != Last(ss).last;
    } else {
      forall ss: seq<State> | Run(req, ss) && ss[0] == s
        ensures Last(ss).phase != Finished(MigratedAndRestored)
      {
        if Acceptable(req, s) {
          RunWithoutBackup(req, ss, |ss| - 1);
        } else {
          RefusedRun(req, ss, |ss| - 1);
        }
      }
    }
  }

  // ---- When the restart keeps what was restored ----

  /** Whatever the record said at the start: from the wait on, the record names the target, and a restored volume
      stays as it is while the target's agent does not list the VM. */
  predicate Late(req: Request, s: State) {
    && (!s.phase.Finished? ==> s.live <= s.known)
    && (s.phase in {WaitTarget, CleanupTarget, StopForRestore, WaitStopped, RestoreBackup, RestartRestored, WaitRestored} ==>
          OnTarget(req, s))
    && (s.phase in {StopForRestore, WaitStopped, RestoreBackup, RestartRestored, WaitRestored} ==> s.snapshot.Some?)
    && (s.phase == RestartRestored && req.target !in s.known ==> HoldsSnapshot(s))
  }

  predicate HoldsSnapshot(s: State) {
    s.host.Some? && s.snapshot.Some? && s.host.value in s.volumes && s.volumes[s.host.value] == s.snapshot.value
  }

  lemma WorkKeepsLate(req: Request, s: State, t: State)
    requires Late(req, s) && Work(req, s, t)
    ensures Late(req, t)
  {
    match s.phase
    case StartTarget =>
    case RestartRestored =>
    case WaitTarget =>
    case _ =>
  }

  lemma StepKeepsLate(req: Request, s: State, t: State)
    requires Late(req, s) && Step(req, s, t)
    ensures Late(req, t)
  {
    if Work(req, s, t) {
      WorkKeepsLate(req, s, t);
    }
  }

  lemma {:induction false} RunKeepsLate(req: Request, ss: seq<State>, i: nat)
    requires Run(req, ss) && i < |ss|
    ensures Late(req, ss[i])
  {
    if i > 0 {
      RunKeepsLate(req, ss, i - 1);
      assert StepAt(req, ss, i - 1);
      StepKeepsLate(req, ss[i - 1], ss[i]);
    }
  }

  ghost predicate Continues(req: Request, path: seq<State>, s: State) {
    && path != [] && path[0] == s
    && forall i :: 0 <= i < |path| - 1 ==> StepAt(req, path, i)
  }

  /** However the run goes on from `s`, ending as restored means having booted the snapshot. */
  ghost predicate BootsTheSnapshotFrom(req: Request, s: State) {
    forall path: seq<State> :: Continues(req, path, s) && Last(path).phase == Finished(MigratedAndRestored) ==>
      Last(path).booted == s.snapshot
  }

  /** The restart is still ahead on a host that does not list the VM, or the snapshot has been booted. */
  predicate Safe(req: Request, s: State, d: Option<Data>) {
    match s.phase
    case RestartRestored => Late(req, s) && req.target !in s.known && s.snapshot == d
    case WaitRestored => s.booted == d
    case CleanupTarget => true
    case Finished(outcome) => outcome == MigratedAndRestored ==> s.booted == d
    case _ => false
  }

  lemma StepKeepsSafe(req: Request, s: State, t: State, d: Option<Data>)
    requires Safe(req, s, d) && Step(req, s, t)
    ensures Safe(req, t, d)
  {
    if s.phase == RestartRestored {
      StepKeepsLate(req, s, t);
    }
  }

  lemma {:induction false} PathKeepsSafe(req: Request, path: seq<State>, s: State, i: nat)
    requires Continues(req, path, s) && Safe(req, s, s.snapshot) && i < |path|
    ensures Safe(req, path[i], s.snapshot)
  {
    if i > 0 {
      PathKeepsSafe(req, path, s, i - 1);
      assert StepAt(req, path, i - 1);
      StepKeepsSafe(req, path[i - 1], path[i], s.snapshot);
    }
  }

  /** In any run, whatever the record said at its start: once the backup has been restored, every way of going on
      that ends as restored has booted exactly the snapshot, if and only if the target's agent no longer lists
      the VM. */
  lemma RestartKeepsTheRestoreIff(req: Request, ss: seq<State>, k: nat)
    requires Run(req, ss) && k < |ss| && ss[k].phase == RestartRestored
    ensures BootsTheSnapshotFrom(req, ss[k]) <==> req.target !in ss[k].known
  {
    var s := ss[k];
    RunKeepsLate(req, ss, k);
    if req.target in s.known {
      var restarted, done := SkippedStopLosesTheRestore(req, s);
      var path := [s, restarted, done];
      assert StepAt(req, path, 0) && StepAt(req, path, 1);
      assert Continues(req, path, s) && Last(path).booted != s.snapshot;
    } else {
      forall path: seq<State> | Continues(req, path, s) && Last(path).phase == Finished(MigratedAndRestored)
        ensures Last(path).booted == s.snapshot
      {
        PathKeepsSafe(req, path, s, |path| - 1);
      }
    }
  }

  /** With no condition at all, the restore itself is faithful: when it is done, the volume on the machine's current
      host, the target, holds exactly a recorded backup; and if the record was true at the start, exactly what the
      source last wrote. */
  lemma RestoreIsFaithful(req: Request, ss: seq<State>, i: nat)
    requires Run(req, ss) && i + 1 < |ss| && ss[i].phase != RestartRestored && ss[i + 1].phase == RestartRestored
    ensures var t := ss[i + 1];
            && t.host == Some(req.target) && HoldsSnapshot(t) && t.snapshot.value in t.backups
            && (StatusTrue(ss[0]) ==> t.last.Some? && t.volumes[req.target] == t.last.value)
  {
    assert StepAt(req, ss, i);
    OnlyRestoringLeadsToRestart(req, ss[i], ss[i + 1]);
    RunKeepsLate(req, ss, i + 1);
    OnlyForceSkipsTheBackup(req, ss, i + 1);
    if StatusTrue(ss[0]) {
      RunKeepsInv(req, ss, i + 1);
    }
  }

  lemma OnlyRestoringLeadsToRestart(req: Request, s: State, t: State)
    requires Step(req, s, t) && s.phase != RestartRestored && t.phase == RestartRestored
    ensures HoldsSnapshot(t)
  {
  }
}
