/** The registry of host update operations as it is kept in memory: one object per operation, changed in place
    under the lock, and handed out as copies. */
module HostUpdateRegistry {
  import opened Common
  import opened HostUpdates

  class Operation {
    var id: OpId
    var host: HostId
    var kind: Kind
    var status: Status
    var stopped: nat
    var failed: nat
    var restarting: bool
    var message: string
    var error: string
    var createdAt: Time
    var updatedAt: Time
    var completedAt: Option<Time>

    function Value(): Op
      reads this
    {
      Op(id, host, kind, status, stopped, failed, restarting, message, error, createdAt, updatedAt, completedAt)
    }

    constructor (op: Op)
      ensures Value() == op
    {
      id, host, kind, status := op.id, op.host, op.kind, op.status;
      stopped, failed, restarting := op.stopped, op.failed, op.restarting;
      message, error := op.message, op.error;
      createdAt, updatedAt, completedAt := op.createdAt, op.updatedAt, op.completedAt;
    }

    method Apply(c: Change, now: Time)
      modifies this
      ensures Value() == Changed(old(Value()), c, now)
    {
      match c {
        case MarkRunning(text) =>
          status, message, error := Running, text, "";
        case Progress(stopped, failed, restarting, text) =>
          this.stopped, this.failed, this.restarting, message := stopped, failed, restarting, text;
        case Complete(status, text, error, at) =>
          this.status, message, this.error, completedAt := status, text, error, Some(at);
      }
      updatedAt := now;
    }
  }

  class Registry {
    var ops: map<OpId, Operation>

    /** No two ids share an object. */
    ghost predicate Valid()
      reads this
    {
      forall a, b :: a in ops && b in ops && ops[a] == ops[b] ==> a == b
    }

    ghost function State(): map<OpId, Op>
      reads this, ops.Values
    {
      map id | id in ops :: ops[id].Value()
    }

    constructor ()
      ensures Valid() && State() == map[]
    {
      ops := map[];
    }

    /** The whole method runs under the lock. The copy it returns is not the object it keeps. */
    method CreateHostUpdateOperation(host: HostId, kind: Kind, candidates: seq<OpId>, now: Time)
      returns (r: Result<Operation, string>)
      requires Valid()
      modifies this
      ensures Valid() && fresh(ops.Values - old(ops.Values))
      ensures r.Ok? <==> !Busy(old(State()), host) && FreeId(old(State()), candidates).Some?
      ensures r.Err? ==> ops == old(ops)
      ensures r.Ok? ==>
                var id := FreeId(old(State()), candidates).value;
                && State() == old(State())[id := NewOp(id, host, kind, now)]
                && r.value.Value() == State()[id] && fresh(r.value) && r.value !in ops.Values
    {
      var todo := ops.Keys;
      while todo != {}
        invariant todo <= ops.Keys
        invariant forall id :: id in ops && id !in todo ==> !(ops[id].host == host && Active(ops[id].status))
      {
        var id :| id in todo;
        if ops[id].host == host && Active(ops[id].status) {
          assert State()[id].host == host && Active(State()[id].status);
          return Err("host update operation already active");
        }
        todo := todo - {id};
      }
      assert !Busy(State(), host);
      for attempts := 0 to |candidates|
        invariant ops == old(ops) && FreeId(State(), candidates) == FreeId(State(), candidates[attempts..])
      {
        var id := candidates[attempts];
        assert candidates[attempts..][1..] == candidates[attempts + 1..];
        if id in ops {
          continue;
        }
        r := Store(id, host, kind, now);
        return;
      }
      return Err("failed to allocate host update operation id");
    }

    method Store(id: OpId, host: HostId, kind: Kind, now: Time) returns (r: Result<Operation, string>)
      requires Valid() && id !in ops
      modifies this
      ensures Valid() && fresh(ops.Values - old(ops.Values))
      ensures State() == old(State())[id := NewOp(id, host, kind, now)]
      ensures r.Ok? && r.value.Value() == NewOp(id, host, kind, now) && fresh(r.value) && r.value !in ops.Values
    {
      var op := new Operation(NewOp(id, host, kind, now));
      ops := ops[id := op];
      var clone := new Operation(op.Value());
      r := Ok(clone);
      assert State() == old(State())[id := NewOp(id, host, kind, now)];
    }

    method GetHostUpdateOperation(id: OpId) returns (r: Option<Operation>)
      requires Valid()
      ensures r.Some? <==> id in ops
      ensures r.Some? ==> r.value.Value() == State()[id] && fresh(r.value)
    {
      if id !in ops {
        return None;
      }
      var clone := new Operation(ops[id].Value());
      r := Some(clone);
    }

    /** One change under the lock; copies handed out before keep what they showed. */
    method Update(id: OpId, c: Change, now: Time)
      requires Valid()
      modifies ops.Values
      ensures Valid() && State() == Updated(old(State()), id, c, now)
    {
      if id !in ops {
        return;
      }
      ghost var before := State();
      ops[id].Apply(c, now);
      OthersStay(id);
      assert State() == before[id := Changed(before[id], c, now)];
    }

    /** A change of one operation's object is a change of no other operation. */
    twostate lemma OthersStay(id: OpId)
      requires Valid() && id in ops && ops == old(ops)
      requires forall o :: o in ops.Values && o != ops[id] ==> unchanged(o)
      ensures forall other :: other in ops && other != id ==> ops[other].Value() == old(ops[other].Value())
    {
      forall other | other in ops && other != id
        ensures ops[other].Value() == old(ops[other].Value())
      {
        assert ops[other] in ops.Values && ops[other] != ops[id];
      }
    }
  }
}
