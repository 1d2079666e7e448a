/** Host update operations: the registry's calls, the runners as programs of such calls, and every interleaving
    of creators and runners. */
module HostUpdates {
  import opened Common

  type HostId = nat
  type OpId = string
  type Time = int

  datatype Kind = TriggerUpdate | DrainUpdate | BrowserStorage

  datatype Status = Queued | Running | Succeeded | TimedOut | Failed

  datatype Op = Op(id: OpId, host: HostId, kind: Kind, status: Status,
                   stopped: nat, failed: nat, restarting: bool, message: string, error: string,
                   createdAt: Time, updatedAt: Time, completedAt: Option<Time>)

  predicate Active(s: Status) {
    s == Queued || s == Running
  }

  /** What one call under the lock does to an operation. */
  datatype Change =
    | MarkRunning(text: string)
    | Progress(stopped: nat, failed: nat, restarting: bool, text: string)
    | Complete(status: Status, text: string, error: string, at: Time)

  function Changed(op: Op, c: Change, now: Time): Op {
    match c
    case MarkRunning(text) => op.(status := Running, message := text, error := "", updatedAt := now)
    case Progress(stopped, failed, restarting, text) =>
      op.(stopped := stopped, failed := failed, restarting := restarting, message := text, updatedAt := now)
    case Complete(status, text, error, at) =>
      op.(status := status, message := text, error := error, completedAt := Some(at), updatedAt := now)
  }

  /** An unknown id changes nothing. */
  function Updated(ops: map<OpId, Op>, id: OpId, c: Change, now: Time): map<OpId, Op> {
    if id in ops then ops[id := Changed(ops[id], c, now)] else ops
  }

  predicate Busy(ops: map<OpId, Op>, host: HostId) {
    exists id :: id in ops && ops[id].host == host && Active(ops[id].status)
  }

  function NewOp(id: OpId, host: HostId, kind: Kind, now: Time): Op {
    Op(id, host, kind, Queued, 0, 0, false, "", "", now, now, None)
  }

  /** The first candidate that is not taken. */
  function FreeId(ops: map<OpId, Op>, candidates: seq<OpId>): Option<OpId> {
    if candidates == [] then None
    else if candidates[0] !in ops then Some(candidates[0])
    else FreeId(ops, candidates[1..])
  }

  lemma {:induction false} FreeIdIsFree(ops: map<OpId, Op>, candidates: seq<OpId>)
    ensures FreeId(ops, candidates).Some? ==> FreeId(ops, candidates).value !in ops
    ensures FreeId(ops, candidates).None? <==> forall c :: c in candidates ==> c in ops
  {
    if candidates != [] {
      FreeIdIsFree(ops, candidates[1..]);
      assert candidates == [candidates[0]] + candidates[1..];
    }
  }

  // ---- Runners ----

  datatype Act = Mark | Report | Close(status: Status)

  /** What a runner still has to do: calls on the registry, and outside calls that go well or not. */
  datatype Program = Halt | Do(act: Act, next: Program) | Either(well: Program, badly: Program)

  const GiveUp := Do(Close(Failed), Halt)

  /** Report, wait for the host, and close. */
  const AwaitHost := Do(Report, Either(Do(Close(Succeeded), Halt), Do(Close(TimedOut), Halt)))

  /** Looks the host up, checks that it is ready, and goes on. */
  function WithReadyHost(next: Program): Program {
    Do(Mark, Either(Either(next, GiveUp), GiveUp))
  }

  function ProgramOf(kind: Kind): Program {
    match kind
    case TriggerUpdate => WithReadyHost(Either(AwaitHost, GiveUp))
    case DrainUpdate => WithReadyHost(Either(Either(Do(Report, Either(AwaitHost, GiveUp)), GiveUp), GiveUp))
    case BrowserStorage => WithReadyHost(Either(AwaitHost, GiveUp))
  }

  /** No path marks again, and every path closes the operation, once and last. */
  predicate ClosesOnce(p: Program) {
    match p
    case Halt => false
    case Do(Mark, _) => false
    case Do(Report, next) => ClosesOnce(next)
    case Do(Close(status), next) => !Active(status) && next == Halt
    case Either(well, badly) => ClosesOnce(well) && ClosesOnce(badly)
  }

  predicate Performs(c: Change, act: Act) {
    match act
    case Mark => c.MarkRunning?
    case Report => c.Progress?
    case Close(status) => c.Complete? && c.status == status
  }

  lemma ProgramsCloseOnce(kind: Kind)
    ensures ProgramOf(kind).Do? && ProgramOf(kind).act == Mark && ClosesOnce(ProgramOf(kind).next)
  {
  }

  /** Calls a runner can still make. */
  function Size(p: Program): nat {
    match p
    case Halt => 0
    case Do(_, next) => 1 + Size(next)
    case Either(well, badly) => 1 + if Size(well) > Size(badly) then Size(well) else Size(badly)
  }

  // ---- Interleavings ----

  /** The registry, and for every operation what its runner has left to do. */
  datatype System = System(ops: map<OpId, Op>, runners: map<OpId, Program>)

  function Created(s: System, host: HostId, kind: Kind, id: OpId, now: Time): System {
    System(s.ops[id := NewOp(id, host, kind, now)], s.runners[id := ProgramOf(kind)])
  }

  /** A creator under the lock; its runner takes its first step at any time later. */
  predicate CreateStep(s: System, t: System, host: HostId, kind: Kind, candidates: seq<OpId>, now: Time) {
    && !Busy(s.ops, host) && FreeId(s.ops, candidates).Some?
    && t == Created(s, host, kind, FreeId(s.ops, candidates).value, now)
  }

  /** A runner calls the registry. */
  predicate CallStep(s: System, t: System, id: OpId, c: Change, now: Time) {
    && id in s.runners && s.runners[id].Do? && Performs(c, s.runners[id].act)
    && t == System(Updated(s.ops, id, c, now), s.runners[id := s.runners[id].next])
  }

  /** A runner's outside call goes well or not. */
  predicate OutsideStep(s: System, t: System, id: OpId, well: bool) {
    && id in s.runners && s.runners[id].Either?
    && t == s.(runners := s.runners[id := if well then s.runners[id].well else s.runners[id].badly])
  }

  ghost predicate Step(s: System, t: System) {
    || (exists host: HostId, kind, candidates, now :: CreateStep(s, t, host, kind, candidates, now))
    || (exists id, c, now :: CallStep(s, t, id, c, now))
    || (exists id, well :: OutsideStep(s, t, id, well))
  }

  ghost predicate Run(ss: seq<System>) {
    && ss != [] && ss[0] == System(map[], map[])
    && forall i :: 0 <= i < |ss| - 1 ==> StepAt(ss, i)
  }

  ghost predicate StepAt(ss: seq<System>, i: nat)
    requires i + 1 < |ss|
  {
    Step(ss[i], ss[i + 1])
  }

  // ---- The invariant ----

  /** The status follows the runner's place in its program. */
  predicate InStep(op: Op, p: Program) {
    && (op.completedAt.Some? <==> !Active(op.status))
    && match op.status
       case Queued => p == ProgramOf(op.kind)
       case Running => ClosesOnce(p)
       case _ => p == Halt
  }

  predicate OneActive(ops: map<OpId, Op>) {
    forall a, b :: a in ops && b in ops && ops[a].host == ops[b].host && Active(ops[a].status) && Active(ops[b].status) ==> a == b
  }

  predicate Inv(s: System) {
    && s.runners.Keys == s.ops.Keys
    && (forall id :: id in s.ops ==> s.ops[id].id == id && InStep(s.ops[id], s.runners[id]))
    && OneActive(s.ops)
  }

  lemma CreateKeepsInv(s: System, t: System, host: HostId, kind: Kind, candidates: seq<OpId>, now: Time)
    requires Inv(s) && CreateStep(s, t, host, kind, candidates, now)
    ensures Inv(t)
  {
    FreeIdIsFree(s.ops, candidates);
  }

  lemma CallInStep(op: Op, p: Program, c: Change, now: Time)
    requires InStep(op, p) && p.Do? && Performs(c, p.act)
    ensures InStep(Changed(op, c, now), p.next) && Active(op.status)
  {
    ProgramsCloseOnce(op.kind);
  }

  lemma CallKeepsInv(s: System, t: System, id: OpId, c: Change, now: Time)
    requires Inv(s) && CallStep(s, t, id, c, now)
    ensures Inv(t)
  {
    CallInStep(s.ops[id], s.runners[id], c, now);
  }

  lemma OutsideKeepsInv(s: System, t: System, id: OpId, well: bool)
    requires Inv(s) && OutsideStep(s, t, id, well)
    ensures Inv(t)
  {
    ProgramsCloseOnce(s.ops[id].kind);
  }

  lemma StepKeepsInv(s: System, t: System)
    requires Inv(s) && Step(s, t)
    ensures Inv(t)
  {
    if host: HostId, kind, candidates, now :| CreateStep(s, t, host, kind, candidates, now) {
      CreateKeepsInv(s, t, host, kind, candidates, now);
    } else if id, c, now :| CallStep(s, t, id, c, now) {
      CallKeepsInv(s, t, id, c, now);
    } else {
      var id, well :| OutsideStep(s, t, id, well);
      OutsideKeepsInv(s, t, id, well);
    }
  }

  lemma {:induction false} RunKeepsInv(ss: seq<System>, i: nat)
    requires Run(ss) && i < |ss|
    ensures Inv(ss[i])
  {
    if i > 0 {
      RunKeepsInv(ss, i - 1);
      assert StepAt(ss, i - 1);
      StepKeepsInv(ss[i - 1], ss[i]);
    }
  }

  // ---- What holds under every interleaving ----

  /** At most one operation of a host is queued or running. */
  lemma AtMostOneActive(ss: seq<System>, i: nat, a: OpId, b: OpId)
    requires Run(ss) && i < |ss| && a in ss[i].ops && b in ss[i].ops && ss[i].ops[a].host == ss[i].ops[b].host
    requires ss[i].ops[a].status in {Queued, Running} && ss[i].ops[b].status in {Queued, Running}
    ensures a == b
  {
    RunKeepsInv(ss, i);
  }

  /** Two runners of one host are never both at work. */
  lemma RunnersExcludeEachOther(ss: seq<System>, i: nat, a: OpId, b: OpId)
    requires Run(ss) && i < |ss| && a in ss[i].runners && b in ss[i].runners
    requires ss[i].runners[a] != Halt && ss[i].runners[b] != Halt
    requires a in ss[i].ops && b in ss[i].ops && ss[i].ops[a].host == ss[i].ops[b].host
    ensures a == b
  {
    RunKeepsInv(ss, i);
  }

  /** The completion time is set exactly when the operation is over. */
  lemma CompletedExactlyWhenOver(ss: seq<System>, i: nat, id: OpId)
    requires Run(ss) && i < |ss| && id in ss[i].ops
    ensures ss[i].ops[id].completedAt.Some? <==> ss[i].ops[id].status in {Succeeded, TimedOut, Failed}
  {
    RunKeepsInv(ss, i);
  }

  lemma OverStaysInStep(s: System, t: System, id: OpId)
    requires Inv(s) && Step(s, t) && id in s.ops && !Active(s.ops[id].status)
    ensures id in t.ops && t.ops[id] == s.ops[id]
  {
    assert s.runners[id] == Halt;
    if host: HostId, kind, candidates, now :| CreateStep(s, t, host, kind, candidates, now) {
      FreeIdIsFree(s.ops, candidates);
    }
  }

  /** An operation that is over never changes again, in any of its fields. */
  lemma {:induction false} OverIsForGood(ss: seq<System>, i: nat, k: nat, id: OpId)
    requires Run(ss) && i <= k < |ss| && id in ss[i].ops && ss[i].ops[id].status in {Succeeded, TimedOut, Failed}
    ensures id in ss[k].ops && ss[k].ops[id] == ss[i].ops[id]
    decreases k
  {
    if i < k {
      OverIsForGood(ss, i, k - 1, id);
      RunKeepsInv(ss, k - 1);
      assert StepAt(ss, k - 1);
      OverStaysInStep(ss[k - 1], ss[k], id);
    }
  }

  /** Operations are never lost, and what identifies them never changes. */
  lemma {:induction false} IdentityStays(ss: seq<System>, i: nat, k: nat, id: OpId)
    requires Run(ss) && i <= k < |ss| && id in ss[i].ops
    ensures id in ss[k].ops && ss[k].ops[id].host == ss[i].ops[id].host && ss[k].ops[id].kind == ss[i].ops[id].kind
    ensures ss[k].ops[id].createdAt == ss[i].ops[id].createdAt
    decreases k
  {
    if i < k {
      IdentityStays(ss, i, k - 1, id);
      assert StepAt(ss, k - 1);
      IdentityStep(ss[k - 1], ss[k], id);
    }
  }

  lemma IdentityStep(s: System, t: System, id: OpId)
    requires Step(s, t) && id in s.ops
    ensures id in t.ops && t.ops[id].host == s.ops[id].host && t.ops[id].kind == s.ops[id].kind
    ensures t.ops[id].createdAt == s.ops[id].createdAt
  {
    if host: HostId, kind, candidates, now :| CreateStep(s, t, host, kind, candidates, now) {
      FreeIdIsFree(s.ops, candidates);
    }
  }

  predicate Moved(s: System, t: System, id: OpId) {
    id in s.runners && id in t.runners && t.runners[id] != s.runners[id]
  }

  ghost function MoveAt(s: System, t: System, id: OpId): nat {
    if Moved(s, t, id) then 1 else 0
  }

  ghost function Left(s: System, id: OpId): nat {
    if id in s.runners then Size(s.runners[id]) else 0
  }

  /** The steps of the runner of `id` between two points of a run. */
  ghost function Moves(ss: seq<System>, i: nat, k: nat, id: OpId): nat
    requires i <= k < |ss|
    decreases k
  {
    if i == k then 0 else Moves(ss, i, k - 1, id) + MoveAt(ss[k - 1], ss[k], id)
  }

  lemma StepShrinks(s: System, t: System, id: OpId)
    requires Inv(s) && Step(s, t) && id in s.runners
    ensures id in t.runners && Left(t, id) + MoveAt(s, t, id) <= Left(s, id)
  {
    if host: HostId, kind, candidates, now :| CreateStep(s, t, host, kind, candidates, now) {
      FreeIdIsFree(s.ops, candidates);
    }
  }

  lemma RunShrinks(ss: seq<System>, k: nat, id: OpId)
    requires Run(ss) && 0 < k < |ss| && id in ss[k - 1].runners
    ensures id in ss[k].runners && Left(ss[k], id) + MoveAt(ss[k - 1], ss[k], id) <= Left(ss[k - 1], id)
  {
    RunKeepsInv(ss, k - 1);
    assert StepAt(ss, k - 1);
    StepShrinks(ss[k - 1], ss[k], id);
  }

  /** Every runner path ends: it makes at most as many moves as its program is long, and it can always make one
      unless its operation is over. */
  lemma {:induction false} RunnersEnd(ss: seq<System>, i: nat, k: nat, id: OpId)
    requires Run(ss) && i <= k < |ss| && id in ss[i].runners
    ensures id in ss[k].runners && Moves(ss, i, k, id) + Left(ss[k], id) <= Left(ss[i], id)
    decreases k
  {
    if i < k {
      RunnersEnd(ss, i, k - 1, id);
      RunShrinks(ss, k, id);
    }
  }

  lemma NeverStuck(ss: seq<System>, i: nat, id: OpId, now: Time) returns (t: System)
    requires Run(ss) && i < |ss| && id in ss[i].ops && Active(ss[i].ops[id].status)
    ensures Step(ss[i], t) && id in ss[i].runners && id in t.runners && Size(t.runners[id]) < Size(ss[i].runners[id])
  {
    RunKeepsInv(ss, i);
    var s := ss[i];
    var p := s.runners[id];
    ProgramsCloseOnce(s.ops[id].kind);
    if p.Either? {
      t := s.(runners := s.runners[id := p.well]);
      assert OutsideStep(s, t, id, true);
    } else {
      var c := match p.act
        case Mark => MarkRunning("")
        case Report => Progress(0, 0, false, "")
        case Close(status) => Complete(status, "", "", now);
      t := System(Updated(s.ops, id, c, now), s.runners[id := p.next]);
      assert CallStep(s, t, id, c, now);
    }
  }

  /** A runner that has nothing left to do has closed its operation. */
  lemma HaltedIsOver(ss: seq<System>, i: nat, id: OpId)
    requires Run(ss) && i < |ss| && id in ss[i].ops && id in ss[i].runners
    ensures ss[i].runners[id] == Halt <==> ss[i].ops[id].status in {Succeeded, TimedOut, Failed}
  {
    RunKeepsInv(ss, i);
    ProgramsCloseOnce(ss[i].ops[id].kind);
  }

  // ---- Why the order of each runner matters ----

  /** The registry itself does not protect an operation that is over: a late mark would revive it
      and let a second one run beside it. */
  lemma ALateMarkWouldRevive(ops: map<OpId, Op>, a: OpId, b: OpId, now: Time)
    requires a in ops && b in ops && a != b && ops[a].host == ops[b].host
    requires !Active(ops[a].status) && Active(ops[b].status)
    ensures !OneActive(Updated(ops, a, MarkRunning("late"), now))
  {
    var after := Updated(ops, a, MarkRunning("late"), now);
    assert after[a].host == after[b].host && Active(after[a].status) && Active(after[b].status);
  }
}
