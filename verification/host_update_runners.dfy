/** The runner goroutines as they are written, with everybody else's calls in between. */
module HostUpdateRunners {
  import opened Common
  import opened HostUpdates
  import opened HostUpdateRegistry

  method AnyNat() returns (n: nat)
  {
    var x: int := *;
    n := if x < 0 then -x else x;
  }

  /** Whatever a runner may report where its program says so. */
  method AnyChange(act: Act) returns (c: Change)
    ensures Performs(c, act)
  {
    var text: string, detail: string, at: int, restarting: bool := *, *, *, *;
    var stopped := AnyNat();
    var failed := AnyNat();
    c := match act
      case Mark => MarkRunning(text)
      case Report => Progress(stopped, failed, restarting, text)
      case Close(status) => Complete(status, text, detail, at);
  }

  datatype Machine = Machine(id: string, status: string)

  function RunningOf(machineList: seq<Machine>): seq<Machine> {
    if machineList == [] then []
    else (if machineList[0].status == "running" then [machineList[0]] else []) + RunningOf(machineList[1..])
  }

  lemma TakenOut<T>(s: seq<T>, i: nat)
    requires i < |s|
    ensures multiset(s) == multiset(s[..i] + s[i + 1..]) + multiset{s[i]}
  {
    assert s == s[..i] + ([s[i]] + s[i + 1..]);
  }

  function Called(s: System, id: OpId, c: Change, now: Time): System
    requires id in s.runners && s.runners[id].Do?
  {
    System(Updated(s.ops, id, c, now), s.runners[id := s.runners[id].next])
  }

  function Answered(s: System, id: OpId, well: bool): System
    requires id in s.runners && s.runners[id].Either?
  {
    s.(runners := s.runners[id := if well then s.runners[id].well else s.runners[id].badly])
  }

  lemma CreatedIsStep(s: System, host: HostId, kind: Kind, candidates: seq<OpId>, now: Time)
    requires !Busy(s.ops, host) && FreeId(s.ops, candidates).Some?
    ensures Step(s, Created(s, host, kind, FreeId(s.ops, candidates).value, now))
  {
    assert CreateStep(s, Created(s, host, kind, FreeId(s.ops, candidates).value, now), host, kind, candidates, now);
  }

  lemma CalledIsStep(s: System, id: OpId, c: Change, now: Time)
    requires id in s.runners && s.runners[id].Do? && Performs(c, s.runners[id].act)
    ensures Step(s, Called(s, id, c, now))
  {
    assert CallStep(s, Called(s, id, c, now), id, c, now);
  }

  lemma AnsweredIsStep(s: System, id: OpId, well: bool)
    requires id in s.runners && s.runners[id].Either?
    ensures Step(s, Answered(s, id, well))
  {
    assert OutsideStep(s, Answered(s, id, well), id, well);
  }

  // ---- How an operation ends ----

  /** The operation is closed with this status; what it counts stays. */
  predicate EndsAs(was: Op, now: Op, status: Status) {
    now.status == status && now.stopped == was.stopped && now.failed == was.failed && now.restarting == was.restarting
  }

  predicate Counts(op: Op, stopped: nat, failed: nat, restarting: bool) {
    op.stopped == stopped && op.failed == failed && op.restarting == restarting
  }

  /** Questions are asked in turn, up to the first that is answered badly, `total` at most. */
  predicate Asked(answers: seq<bool>, total: nat) {
    && 0 < |answers| <= total && (|answers| < total ==> !Last(answers))
    && forall i :: 0 <= i < |answers| - 1 ==> answers[i]
  }

  /** An operation succeeds when everything goes well, times out when only the last answer, that of the wait, is bad,
      and fails otherwise. */
  function Verdict(answers: seq<bool>, total: nat): Status {
    if |answers| == total && total > 0 then (if Last(answers) then Succeeded else TimedOut) else Failed
  }

  /** Going on after good answers. */
  lemma AskedOn(first: seq<bool>, more: seq<bool>, total: nat)
    requires Asked(more, total) && forall i :: 0 <= i < |first| ==> first[i]
    ensures Asked(first + more, |first| + total) && Verdict(first + more, |first| + total) == Verdict(more, total)
  {
    assert Last(first + more) == Last(more);
  }

  /** One question, and the ones after it when it goes well. */
  function OneThen(well: bool, more: seq<bool>): seq<bool> {
    if well then [true] + more else [false]
  }

  lemma AskedOneThen(well: bool, more: seq<bool>, total: nat)
    requires well ==> Asked(more, total)
    ensures Asked(OneThen(well, more), total + 1)
    ensures Verdict(OneThen(well, more), total + 1) == (if well then Verdict(more, total) else if total == 0 then TimedOut else Failed)
    ensures well ==> |OneThen(well, more)| == 1 + |more|
  {
    if well {
      AskedOn([true], more, total);
    }
  }

  class Server {
    const registry: Registry
    var runners: map<OpId, Program>
    ghost var trace: seq<System>

    ghost function Now(): System
      reads this, registry, registry.ops.Values
    {
      System(registry.State(), runners)
    }

    /** Everything so far is a run that ends here. */
    ghost predicate Valid()
      reads this, registry, registry.ops.Values
    {
      registry.Valid() && Run(trace) && Last(trace) == Now()
    }

    constructor ()
      ensures Valid() && fresh(registry) && runners == map[]
    {
      registry := new Registry();
      runners := map[];
      new;
      trace := [Now()];
    }

    ghost method Log(before: System, after: System)
      requires registry.Valid() && Run(trace) && Last(trace) == before && Now() == after && Step(before, after)
      modifies this`trace
      ensures Valid() && trace == old(trace) + [after]
    {
      ghost var was := trace;
      trace := trace + [after];
      forall i | 0 <= i < |trace| - 1
        ensures StepAt(trace, i)
      {
        if i < |was| - 1 {
          assert StepAt(was, i);
        }
      }
    }

    /** A handler starts an operation and its runner. */
    method StartOperation(host: HostId, kind: Kind, candidates: seq<OpId>, now: Time) returns (r: Result<Operation, string>)
      requires Valid()
      modifies this, registry
      ensures Valid() && fresh(registry.ops.Values - old(registry.ops.Values)) && old(trace) <= trace
      ensures r.Ok? <==> !Busy(old(registry.State()), host) && FreeId(old(registry.State()), candidates).Some?
      ensures Now() == if r.Ok? then Created(old(Now()), host, kind, FreeId(old(registry.State()), candidates).value, now)
                       else old(Now())
    {
      ghost var before := Now();
      r := registry.CreateHostUpdateOperation(host, kind, candidates, now);
      if r.Err? {
        assert registry.State() == before.ops;
        return;
      }
      StartRunner(r.value.id, kind, before, FreeId(before.ops, candidates).value, host, candidates, now);
    }

    method StartRunner(id: OpId, kind: Kind, ghost before: System, ghost freeId: OpId, ghost host: HostId,
                       ghost candidates: seq<OpId>, ghost now: Time)
      requires registry.Valid() && Run(trace) && Last(trace) == before && runners == before.runners
      requires !Busy(before.ops, host) && FreeId(before.ops, candidates) == Some(freeId) && id == freeId
      requires registry.State() == before.ops[freeId := NewOp(freeId, host, kind, now)]
      modifies this
      ensures Valid() && old(trace) <= trace && Now() == Created(before, host, kind, freeId, now)
    {
      ghost var ops := registry.State();
      runners := runners[id := ProgramOf(kind)];
      assert registry.State() == ops;
      CreatedIsStep(before, host, kind, candidates, now);
      Log(before, Created(before, host, kind, id, now));
    }

    /** A runner calls the registry. */
    method Call(id: OpId, c: Change, now: Time)
      requires Valid() && id in runners && runners[id].Do? && Performs(c, runners[id].act)
      modifies this, registry.ops.Values
      ensures Valid() && old(trace) <= trace && registry.ops == old(registry.ops)
      ensures Now() == Called(old(Now()), id, c, now)
    {
      ghost var before := Now();
      registry.Update(id, c, now);
      ghost var ops := registry.State();
      runners := runners[id := runners[id].next];
      assert registry.State() == ops;
      CalledIsStep(before, id, c, now);
      Log(before, Called(before, id, c, now));
    }

    /** An outside call of a runner returns. */
    method Answer(id: OpId, well: bool)
      requires Valid() && id in runners && runners[id].Either?
      modifies this
      ensures Valid() && old(trace) <= trace
      ensures Now() == Answered(old(Now()), id, well)
    {
      ghost var before := Now();
      runners := runners[id := if well then runners[id].well else runners[id].badly];
      AnsweredIsStep(before, id, well);
      Log(before, Answered(before, id, well));
    }

    /** One call of anybody else: a handler that starts an operation, or another runner. */
    method OtherCall(mine: OpId)
      requires Valid() && mine in runners && mine in registry.ops
      modifies this, registry, registry.ops.Values
      ensures Valid() && old(trace) <= trace && fresh(registry.ops.Values - old(registry.ops.Values))
      ensures mine in runners && runners[mine] == old(runners[mine])
      ensures mine in registry.ops && registry.State()[mine] == old(registry.State()[mine])
    {
      if * {
        OtherHandler(mine);
      } else {
        var other :| other in runners;
        if other != mine {
          OtherRunner(mine, other);
        }
      }
    }

    method OtherHandler(mine: OpId)
      requires Valid() && mine in runners && mine in registry.ops
      modifies this, registry, registry.ops.Values
      ensures Valid() && old(trace) <= trace && fresh(registry.ops.Values - old(registry.ops.Values))
      ensures mine in runners && runners[mine] == old(runners[mine])
      ensures mine in registry.ops && registry.State()[mine] == old(registry.State()[mine])
    {
      var now: int := *;
      var host := AnyNat();
      var candidates: seq<OpId> := *;
      var kind: Kind := *;
      FreeIdIsFree(registry.State(), candidates);
      var _ := StartOperation(host, kind, candidates, now);
      assert mine in Now().ops;
    }

    method OtherRunner(mine: OpId, other: OpId)
      requires Valid() && mine in runners && mine in registry.ops && other in runners && other != mine
      modifies this, registry, registry.ops.Values
      ensures Valid() && old(trace) <= trace && fresh(registry.ops.Values - old(registry.ops.Values))
      ensures mine in runners && runners[mine] == old(runners[mine])
      ensures mine in registry.ops && registry.State()[mine] == old(registry.State()[mine])
    {
      var now: int := *;
      if runners[other].Do? {
        var c := AnyChange(runners[other].act);
        Call(other, c, now);
      } else if runners[other].Either? {
        var well: bool := *;
        Answer(other, well);
      }
    }

    method Meanwhile(mine: OpId)
      requires Valid() && mine in runners && mine in registry.ops
      modifies this, registry, registry.ops.Values
      ensures Valid() && old(trace) <= trace && fresh(registry.ops.Values - old(registry.ops.Values))
      ensures mine in runners && runners[mine] == old(runners[mine])
      ensures mine in registry.ops && registry.State()[mine] == old(registry.State()[mine])
    {
      var calls := AnyNat();
      for i := 0 to calls
        invariant Valid() && old(trace) <= trace && fresh(registry.ops.Values - old(registry.ops.Values))
        invariant mine in runners && runners[mine] == old(runners[mine])
        invariant mine in registry.ops && registry.State()[mine] == old(registry.State()[mine])
      {
        OtherCall(mine);
      }
    }

    // ---- The runners ----

    /** The runner's next call, after whatever the others do. */
    method Record(id: OpId, c: Change) returns (ghost at: Time)
      requires Valid() && id in runners && id in registry.ops && runners[id].Do? && Performs(c, runners[id].act)
      modifies this, registry, registry.ops.Values
      ensures Valid() && old(trace) <= trace && fresh(registry.ops.Values - old(registry.ops.Values))
      ensures id in runners && runners[id] == old(runners[id]).next && id in registry.ops
      ensures registry.State()[id] == Changed(old(registry.State()[id]), c, at)
    {
      Meanwhile(id);
      var now: int := *;
      Call(id, c, now);
      at := now;
    }

    /** An outside call of the runner: a look-up, a check, or a call to the agent. */
    method Ask(id: OpId) returns (well: bool)
      requires Valid() && id in runners && id in registry.ops && runners[id].Either?
      modifies this, registry, registry.ops.Values
      ensures Valid() && old(trace) <= trace && fresh(registry.ops.Values - old(registry.ops.Values))
      ensures id in runners && id in registry.ops
      ensures runners[id] == if well then old(runners[id]).well else old(runners[id]).badly
      ensures registry.State()[id] == old(registry.State()[id])
    {
      Meanwhile(id);
      well := *;
      Answer(id, well);
    }

    method Fail(id: OpId, message: string, error: string)
      requires Valid() && id in runners && id in registry.ops && runners[id] == GiveUp
      modifies this, registry, registry.ops.Values
      ensures Valid() && old(trace) <= trace && fresh(registry.ops.Values - old(registry.ops.Values))
      ensures id in runners && id in registry.ops && runners[id] == Halt
      ensures EndsAs(old(registry.State()[id]), registry.State()[id], Failed)
    {
      var now: int := *;
      ghost var _ := Record(id, Complete(Failed, message, error, now));
    }

    /** An outside call that the operation does not survive when it goes badly. */
    method AskOrFail(id: OpId, message: string, error: string, ghost next: Program) returns (well: bool)
      requires Valid() && id in runners && id in registry.ops && runners[id] == Either(next, GiveUp)
      modifies this, registry, registry.ops.Values
      ensures Valid() && old(trace) <= trace && fresh(registry.ops.Values - old(registry.ops.Values))
      ensures id in runners && id in registry.ops && runners[id] == if well then next else Halt
      ensures if well then registry.State()[id] == old(registry.State()[id])
              else EndsAs(old(registry.State()[id]), registry.State()[id], Failed)
    {
      well := Ask(id);
      if !well {
        Fail(id, message, error);
      }
    }

    method ReportResult(id: OpId, ready: bool)
      requires Valid() && id in runners && id in registry.ops
      requires runners[id] == Do(Close(if ready then Succeeded else TimedOut), Halt)
      modifies this, registry, registry.ops.Values
      ensures Valid() && old(trace) <= trace && fresh(registry.ops.Values - old(registry.ops.Values))
      ensures id in runners && id in registry.ops && runners[id] == Halt
      ensures EndsAs(old(registry.State()[id]), registry.State()[id], if ready then Succeeded else TimedOut)
    {
      var now: int := *;
      if ready {
        ghost var _ := Record(id, Complete(Succeeded, "updated and back online", "", now));
      } else {
        ghost var _ := Record(id, Complete(TimedOut, "update triggered but agent has not come back yet; check host status", "", now));
      }
    }

    /** Reports, polls until the host is ready or the deadline has passed, and closes. */
    method FinishAfterWait(id: OpId, stopped: nat, failed: nat, restarting: bool) returns (ready: bool)
      requires Valid() && id in runners && id in registry.ops && runners[id] == AwaitHost
      modifies this, registry, registry.ops.Values
      ensures Valid() && old(trace) <= trace && fresh(registry.ops.Values - old(registry.ops.Values))
      ensures id in runners && id in registry.ops && runners[id] == Halt
      ensures var op := registry.State()[id];
              op.status == (if ready then Succeeded else TimedOut) && Counts(op, stopped, failed, restarting)
    {
      ghost var _ := Record(id, Progress(stopped, failed, restarting, "waiting for host agent to report ready"));
      ready := Ask(id);
      ReportResult(id, ready);
    }

    /** Marks the operation running and makes sure that the host is ready; otherwise the operation fails. */
    method BeginOnReadyHost(id: OpId, message: string, ghost next: Program) returns (ready: bool, ghost answers: seq<bool>)
      requires Valid() && id in runners && id in registry.ops && runners[id] == WithReadyHost(next)
      modifies this, registry, registry.ops.Values
      ensures Valid() && old(trace) <= trace && fresh(registry.ops.Values - old(registry.ops.Values))
      ensures id in runners && id in registry.ops && runners[id] == if ready then next else Halt
      ensures if ready then answers == [true, true]
              else registry.State()[id].status == Failed && (answers == [false] || answers == [true, false])
    {
      ghost var _ := Record(id, MarkRunning(message));
      ready, answers := CheckHost(id, next);
    }

    method CheckHost(id: OpId, ghost next: Program) returns (ready: bool, ghost answers: seq<bool>)
      requires Valid() && id in runners && id in registry.ops && runners[id] == Either(Either(next, GiveUp), GiveUp)
      modifies this, registry, registry.ops.Values
      ensures Valid() && old(trace) <= trace && fresh(registry.ops.Values - old(registry.ops.Values))
      ensures id in runners && id in registry.ops && runners[id] == if ready then next else Halt
      ensures if ready then answers == [true, true]
              else registry.State()[id].status == Failed && (answers == [false] || answers == [true, false])
    {
      ready := AskOrFail(id, "failed to look up host", "lookup", Either(next, GiveUp));
      answers := [ready];
      if ready {
        ready := AskOrFail(id, "host is not ready", "host is not ready", next);
        answers := [true, ready];
      }
    }

    /** The answers are those to the look-up, the check that the host is ready, the call to its agent, and the wait for
        it to come back. */
    method RunTriggerHostUpdateOperation(id: OpId) returns (ghost answers: seq<bool>)
      requires Valid() && id in runners && id in registry.ops && runners[id] == ProgramOf(TriggerUpdate)
      modifies this, registry, registry.ops.Values
      ensures Valid() && old(trace) <= trace && id in runners && id in registry.ops && runners[id] == Halt
      ensures registry.State()[id].status == Verdict(answers, 4) && Asked(answers, 4)
    {
      var ready;
      ready, answers := BeginOnReadyHost(id, "triggering host update", Either(AwaitHost, GiveUp));
      if ready {
        ghost var more := TriggerAgent(id, 0, 0, false);
        AskedOn(answers, more, 2);
        answers := answers + more;
      }
      HaltedIsOver(trace, |trace| - 1, id);
    }

    /** The call to the agent, and the wait for what comes of it. */
    method TriggerAgent(id: OpId, stopped: nat, failed: nat, restarting: bool) returns (ghost answers: seq<bool>)
      requires Valid() && id in runners && id in registry.ops && runners[id] == Either(AwaitHost, GiveUp)
      modifies this, registry, registry.ops.Values
      ensures Valid() && old(trace) <= trace && fresh(registry.ops.Values - old(registry.ops.Values))
      ensures id in runners && id in registry.ops && runners[id] == Halt
      ensures registry.State()[id].status == Verdict(answers, 2) && Asked(answers, 2)
      ensures Counts(old(registry.State()[id]), stopped, failed, restarting) || |answers| == 2 ==>
                Counts(registry.State()[id], stopped, failed, restarting)
    {
      var triggered := AskOrFail(id, "failed to trigger agent update", "agent", AwaitHost);
      answers := [triggered];
      if triggered {
        var ready := FinishAfterWait(id, stopped, failed, restarting);
        answers := [true, ready];
      }
    }

    /** The machines of the list that are running, in order. */
    method RunningMachines(machineList: seq<Machine>) returns (running: seq<Machine>)
      ensures running == RunningOf(machineList)
    {
      running := [];
      for i := 0 to |machineList|
        invariant running + RunningOf(machineList[i..]) == RunningOf(machineList)
      {
        assert machineList[i..][0] == machineList[i] && machineList[i..][1..] == machineList[i + 1..];
        if machineList[i].status == "running" {
          running := running + [machineList[i]];
        }
      }
    }

    /** Stops all running machines at once. They finish in any order, each one stopped or failed: every machine ends up
        in exactly one of the two lists. */
    method StopMachines(running: seq<Machine>) returns (stopped: seq<Machine>, failed: seq<Machine>)
      ensures multiset(stopped) + multiset(failed) == multiset(running)
      ensures |stopped| + |failed| == |running|
    {
      stopped, failed := [], [];
      var stopping := running;
      while stopping != []
        invariant multiset(stopped) + multiset(failed) + multiset(stopping) == multiset(running)
        decreases |stopping|
      {
        var i :| 0 <= i < |stopping|;
        TakenOut(stopping, i);
        if * {
          stopped := stopped + [stopping[i]];
        } else {
          failed := failed + [stopping[i]];
        }
        stopping := stopping[..i] + stopping[i + 1..];
      }
      assert |multiset(stopped) + multiset(failed)| == |multiset(running)|;
    }

    /** The answers are those to the look-up, the check that the host is ready, the listing, the check that there is a
        machine runtime, the call to the agent, and the wait. Past the fourth, the operation counts the machines that
        were stopped and those that were not. */
    method RunDrainHostUpdateOperation(id: OpId, machineList: seq<Machine>)
      returns (ghost answers: seq<bool>, ghost stopped: seq<Machine>, ghost failed: seq<Machine>)
      requires Valid() && id in runners && id in registry.ops && runners[id] == ProgramOf(DrainUpdate)
      modifies this, registry, registry.ops.Values
      ensures Valid() && old(trace) <= trace && id in runners && id in registry.ops && runners[id] == Halt
      ensures registry.State()[id].status == Verdict(answers, 6) && Asked(answers, 6)
      ensures |answers| > 4 ==>
                && multiset(stopped) + multiset(failed) == multiset(RunningOf(machineList))
                && Counts(registry.State()[id], |stopped|, |failed|, true)
    {
      stopped, failed := [], [];
      var ready;
      ready, answers := BeginOnReadyHost(id, "draining host before update",
                                         Either(Either(Do(Report, Either(AwaitHost, GiveUp)), GiveUp), GiveUp));
      if ready {
        ghost var more;
        more, stopped, failed := DrainAndUpdate(id, machineList);
        AskedOn(answers, more, 4);
        answers := answers + more;
      }
      HaltedIsOver(trace, |trace| - 1, id);
    }

    method DrainAndUpdate(id: OpId, machineList: seq<Machine>)
      returns (ghost answers: seq<bool>, ghost stopped: seq<Machine>, ghost failed: seq<Machine>)
      requires Valid() && id in runners && id in registry.ops
      requires runners[id] == Either(Either(Do(Report, Either(AwaitHost, GiveUp)), GiveUp), GiveUp)
      modifies this, registry, registry.ops.Values
      ensures Valid() && old(trace) <= trace && fresh(registry.ops.Values - old(registry.ops.Values))
      ensures id in runners && id in registry.ops && runners[id] == Halt
      ensures registry.State()[id].status == Verdict(answers, 4) && Asked(answers, 4)
      ensures |answers| > 2 ==>
                && multiset(stopped) + multiset(failed) == multiset(RunningOf(machineList))
                && Counts(registry.State()[id], |stopped|, |failed|, true)
    {
      stopped, failed := [], [];
      ghost var stop := Do(Report, Either(AwaitHost, GiveUp));
      var well := AskOrFail(id, "failed to list machines", "list", Either(stop, GiveUp));
      ghost var more: seq<bool> := [];
      if well {
        var running := RunningMachines(machineList);
        more, stopped, failed := StopIfPossible(id, running);
      }
      AskedOneThen(well, more, 3);
      answers := OneThen(well, more);
    }

    method StopIfPossible(id: OpId, running: seq<Machine>)
      returns (ghost answers: seq<bool>, ghost stopped: seq<Machine>, ghost failed: seq<Machine>)
      requires Valid() && id in runners && id in registry.ops
      requires runners[id] == Either(Do(Report, Either(AwaitHost, GiveUp)), GiveUp)
      modifies this, registry, registry.ops.Values
      ensures Valid() && old(trace) <= trace && fresh(registry.ops.Values - old(registry.ops.Values))
      ensures id in runners && id in registry.ops && runners[id] == Halt
      ensures registry.State()[id].status == Verdict(answers, 3) && Asked(answers, 3)
      ensures |answers| > 1 ==>
                && multiset(stopped) + multiset(failed) == multiset(running)
                && Counts(registry.State()[id], |stopped|, |failed|, true)
    {
      stopped, failed := [], [];
      var well := AskOrFail(id, "failed to stop running machines", "machine runtime not configured",
                            Do(Report, Either(AwaitHost, GiveUp)));
      ghost var more: seq<bool> := [];
      if well {
        more, stopped, failed := StopAndUpdate(id, running);
      }
      AskedOneThen(well, more, 2);
      answers := OneThen(well, more);
    }

    method StopAndUpdate(id: OpId, running: seq<Machine>)
      returns (ghost answers: seq<bool>, ghost stoppedMachines: seq<Machine>, ghost failedMachines: seq<Machine>)
      requires Valid() && id in runners && id in registry.ops && runners[id] == Do(Report, Either(AwaitHost, GiveUp))
      modifies this, registry, registry.ops.Values
      ensures Valid() && old(trace) <= trace && fresh(registry.ops.Values - old(registry.ops.Values))
      ensures id in runners && id in registry.ops && runners[id] == Halt
      ensures registry.State()[id].status == Verdict(answers, 2) && Asked(answers, 2)
      ensures multiset(stoppedMachines) + multiset(failedMachines) == multiset(running)
      ensures Counts(registry.State()[id], |stoppedMachines|, |failedMachines|, true)
    {
      var stopped, failed := StopMachines(running);
      ghost var _ := Record(id, Progress(|stopped|, |failed|, true, "triggering host update"));
      answers := TriggerAgent(id, |stopped|, |failed|, true);
      stoppedMachines, failedMachines := stopped, failed;
    }

    method ConfigureOnAgent(id: OpId) returns (ghost answers: seq<bool>)
      requires Valid() && id in runners && id in registry.ops && runners[id] == Either(AwaitHost, GiveUp)
      modifies this, registry, registry.ops.Values
      ensures Valid() && old(trace) <= trace && fresh(registry.ops.Values - old(registry.ops.Values))
      ensures id in runners && id in registry.ops && runners[id] == Halt
      ensures registry.State()[id].status == Verdict(answers, 2) && Asked(answers, 2)
    {
      var configured := AskOrFail(id, "failed to configure browser storage", "agent", AwaitHost);
      answers := [configured];
      if configured {
        var ready := FinishAfterWait(id, 0, 0, false);
        answers := [true, ready];
      }
    }

    /** The answers are those to the look-up, the check that the host is ready, the call to its agent, and the wait. */
    method RunConfigureHostBrowserStorageOperation(id: OpId) returns (ghost answers: seq<bool>)
      requires Valid() && id in runners && id in registry.ops && runners[id] == ProgramOf(BrowserStorage)
      modifies this, registry, registry.ops.Values
      ensures Valid() && old(trace) <= trace && id in runners && id in registry.ops && runners[id] == Halt
      ensures registry.State()[id].status == Verdict(answers, 4) && Asked(answers, 4)
    {
      var ready;
      ready, answers := BeginOnReadyHost(id, "configuring browser storage", Either(AwaitHost, GiveUp));
      if ready {
        ghost var more := ConfigureOnAgent(id);
        AskedOn(answers, more, 2);
        answers := answers + more;
      }
      HaltedIsOver(trace, |trace| - 1, id);
    }
  }
}
