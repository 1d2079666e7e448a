/** The agent's half of the browser VM protocol, and what the client makes of its answers and silences. */
module AgentProtocol {
  import opened Common
  import opened BrowserVm
  import opened BrowserHandlers

  /** What becomes of a request: answered; never sent; cut off by a timeout or a cancellation before or after the
      agent has worked on it; or broken off by another transport error, before or after. */
  datatype Network = Answered | NeverSent | TimedOutBefore | TimedOutAfter | BrokenBefore | BrokenAfter

  predicate Reaches(n: Network) {
    n.Answered? || n.TimedOutAfter? || n.BrokenAfter?
  }

  predicate TimedOut(n: Network) {
    n.TimedOutBefore? || n.TimedOutAfter?
  }

  class Agent {
    var vms: set<VmId>
    var ready: set<VmId>          // VMs whose browser answers, or that are listed as ready
    var available: bool

    constructor ()
      ensures vms == {} && available
    {
      vms, ready, available := {}, {}, true;
    }

    method HandleCreateBrowserVM(id: VmId, vmIP: string) returns (status: nat)
      modifies this`vms
      ensures status in {202, 400, 500, 503}
      ensures vms == if status == 202 then old(vms) + {id} else old(vms)
      ensures status == 503 <==> !available
      ensures status == 400 <==> available && (id == "" || vmIP == "")
    {
      if !available {
        return 503;
      }
      if id == "" || vmIP == "" {
        return 400;
      }
      var created: bool := *;
      if !created {
        return 500;
      }
      vms := vms + {id};
      return 202;
    }

    /** Destroying a VM that is not there is a success. */
    method HandleDestroyBrowserVM(id: VmId) returns (status: nat)
      modifies this`vms
      ensures status in {200, 500, 503} && vms == if status == 200 then old(vms) - {id} else old(vms)
      ensures status == 503 <==> !available
      ensures status == 500 ==> id in old(vms)
    {
      if !available {
        return 503;
      }
      if id in vms {
        var stopped: bool := *;
        if !stopped {
          return 500;
        }
        vms := vms - {id};
      }
      return 200;
    }

    method HandleBrowserVMHealth(id: VmId) returns (status: nat, isReady: bool)
      ensures status in {200, 404, 500} && (status == 404 ==> id !in vms) && (status == 200 ==> id in vms)
      ensures isReady <==> status == 200 && id in ready
    {
      var listed: bool := *;
      if !listed {
        return 500, false;
      }
      if id !in vms {
        return 404, false;
      }
      return 200, id in ready;
    }
  }

  class Client {
    const agent: Agent

    constructor (agent: Agent)
      ensures this.agent == agent
    {
      this.agent := agent;
    }

    /** A timeout is an unknown outcome; every other failure is reported as "not created". `status` is what the agent
        answered, whether or not the answer arrived; 0 when it was not asked. */
    method CreateBrowserVM(id: VmId, vmIP: string, net: Network) returns (answer: CreateAnswer, ghost status: nat)
      modifies agent`vms
      ensures status != 0 <==> Reaches(net)
      ensures agent.vms == if status == 202 then old(agent.vms) + {id} else old(agent.vms)
      ensures answer == MayBeCreated <==> net in {TimedOutBefore, TimedOutAfter}
      ensures answer == Created <==> net == Answered && status == 202
    {
      var code := 0;
      if Reaches(net) {
        code := agent.HandleCreateBrowserVM(id, vmIP);
      }
      status := code;
      if net != Answered {
        return if TimedOut(net) then MayBeCreated else NotCreated, status;
      }
      if code != 201 && code != 202 {
        return NotCreated, status;
      }
      return Created, status;
    }

    /** "Not found" counts as destroyed. */
    method DestroyBrowserVM(id: VmId, net: Network) returns (err: bool, ghost status: nat)
      modifies agent`vms
      ensures status != 0 <==> Reaches(net)
      ensures agent.vms == if status == 200 then old(agent.vms) - {id} else old(agent.vms)
      ensures err <==> !(net == Answered && status == 200)
    {
      var code := 0;
      if Reaches(net) {
        code := agent.HandleDestroyBrowserVM(id);
      }
      status := code;
      if net != Answered {
        return true, status;
      }
      if code == 404 {
        return false, status;
      }
      return code != 200, status;
    }

    method GetBrowserVMHealth(id: VmId, net: Network) returns (answer: HealthAnswer, ghost status: nat)
      ensures status != 0 <==> net == Answered
      ensures answer == IsGone <==> status == 404
      ensures answer == IsReady <==> status == 200 && id in agent.ready
      ensures answer == IsNotReady <==> status == 200 && id !in agent.ready
      ensures answer == IsGone ==> id !in agent.vms
      ensures answer == IsReady || answer == IsNotReady ==> id in agent.vms
    {
      if net != Answered {
        return NoAnswer, 0;
      }
      var code, isReady := agent.HandleBrowserVMHealth(id);
      status := code;
      if code == 404 {
        return IsGone, status;
      }
      if code != 200 {
        return NoAnswer, status;
      }
      return if isReady then IsReady else IsNotReady, status;
    }
  }

  // ---- Why the protocol model's fates are enough ----

  /** The fate that stands for an answer to a create. */
  function CreateFate(a: CreateAnswer): Fate {
    match a
    case Created => Succeeds
    case NotCreated => Fails
    case MayBeCreated => Unknown
  }

  function DestroyFate(err: bool, gone: bool): Fate {
    if !err then Succeeds else if gone then FailsLate else Fails
  }

  /** Nothing on the agent is unknown to the model. */
  predicate Accounts(vm: Vm, host: HostId, there: bool) {
    there ==> host in Maybe(vm)
  }

  /** What a create does on the agent is accounted for by the fate that stands for the client's answer, if and only if
      the answer is not a plain failure of a request that the agent carried out all the same. */
  lemma CreateIsAccountedIff(vm: Vm, host: HostId, net: Network, answer: CreateAnswer, carriedOut: bool)
    requires host !in Maybe(vm)
    requires answer == MayBeCreated <==> TimedOut(net)
    requires answer == Created ==> net == Answered && carriedOut
    requires answer == NotCreated && net == Answered ==> !carriedOut
    requires carriedOut ==> Reaches(net)
    ensures var after := CallEffect(CreateAndWait, host, vm, CreateFate(answer));
            Accounts(after, host, carriedOut) <==> !(net == BrokenAfter && carriedOut)
  {
    var after := CallEffect(CreateAndWait, host, vm, CreateFate(answer));
    if answer == NotCreated {
      assert after == vm;
    } else {
      assert host in Maybe(after);
    }
  }

  /** The other half is not empty: a connection that breaks after the agent has carried the request out leaves the VM
      running where nothing in the tables admits it, and the start handler goes on to give its host up. */
  lemma BrokenCreateOrphans(size: Size, host: HostId)
    ensures var vm := Vm(size, Some(Record(Provisioning, Some(host))), Some(host), {}, {});
            var after := CallEffect(CreateAndWait, host, vm, CreateFate(NotCreated));
            && Covered(vm) && !Accounts(after, host, true)
            && Next(CreateAndWait, CreateFate(NotCreated)) == AbandonCreate
            && StoreEffect(Unassign, host, StoreEffect(Release, host, after)).record.value.host == None
  {
    CreateIsAccountedIff(Vm(size, Some(Record(Provisioning, Some(host))), Some(host), {}, {}), host, BrokenAfter, NotCreated, true);
  }

  /** Destroys are accounted for in every case: when the client reports success the VM is off the host. */
  lemma DestroyIsAccounted(vm: Vm, host: HostId, err: bool, there: bool, gone: bool, p: Program)
    requires p.Destroy? && (there ==> host in vm.live) && (!err ==> gone)
    ensures Possible(p, host, vm, DestroyFate(err, gone))
    ensures Accounts(CallEffect(p, host, vm, DestroyFate(err, gone)), host, there && !gone)
    ensures Next(p, DestroyFate(err, gone)) == if err then p.err else p.ok
  {
    if there && !gone {
      assert CallEffect(p, host, vm, DestroyFate(err, gone)) == vm;
    }
  }

  function HealthFate(a: HealthAnswer): Fate {
    match a
    case IsGone => AgentSaysGone
    case IsReady => AgentSaysReady
    case IsNotReady => AgentSaysNotReady
    case NoAnswer => Fails
  }

  /** The create as the start handler makes it: afterwards the agent has nothing that the VM's model does not know of,
      if and only if the request was not carried out by a connection that then broke. */
  method CreateOnAgent(client: Client, id: VmId, vmIP: string, net: Network, ghost vm: Vm, ghost host: HostId)
    returns (fate: Fate)
    requires host !in Maybe(vm) && Accounts(vm, host, id in client.agent.vms)
    modifies client.agent`vms
    ensures Possible(CreateAndWait, host, vm, fate)
    ensures var there := id in client.agent.vms;
            Accounts(CallEffect(CreateAndWait, host, vm, fate), host, there) <==> !(net == BrokenAfter && there)
  {
    var answer;
    ghost var status;
    answer, status := client.CreateBrowserVM(id, vmIP, net);
    fate := CreateFate(answer);
    CreateIsAccountedIff(vm, host, net, answer, id in client.agent.vms);
  }

  /** The destroy as the stop and delete handlers make it: whatever becomes of it, the agent has nothing that the VM's
      model does not know of, and the handler goes on as its program does. */
  method DestroyOnAgent(client: Client, id: VmId, net: Network, ghost vm: Vm, ghost host: HostId, ghost p: Program)
    returns (err: bool, ghost fate: Fate)
    requires p.Destroy? && (id in client.agent.vms ==> host in vm.live)
    modifies client.agent`vms
    ensures Possible(p, host, vm, fate) && Next(p, fate) == (if err then p.err else p.ok)
    ensures Accounts(CallEffect(p, host, vm, fate), host, id in client.agent.vms)
    ensures !err ==> id !in client.agent.vms
  {
    ghost var there := id in client.agent.vms;
    ghost var status;
    err, status := client.DestroyBrowserVM(id, net);
    ghost var gone := id !in client.agent.vms;
    fate := DestroyFate(err, gone);
    DestroyIsAccounted(vm, host, err, there, gone, p);
  }

  /** The health check as reconciliation makes it: its answers are among those the program allows for. */
  method HealthOnAgent(client: Client, id: VmId, net: Network, ghost vm: Vm, ghost host: HostId) returns (fate: Fate)
    requires id in client.agent.vms <==> host in vm.live
    ensures Possible(ReconcileProgram.ok, host, vm, fate)
    ensures fate == AgentSaysGone ==> id !in client.agent.vms
    ensures fate == AgentSaysReady || fate == AgentSaysNotReady ==> id in client.agent.vms
    ensures fate == AgentSaysReady ==> id in client.agent.ready
    ensures fate == AgentSaysNotReady ==> id !in client.agent.ready
  {
    var answer;
    ghost var status;
    answer, status := client.GetBrowserVMHealth(id, net);
    fate := HealthFate(answer);
  }
}
