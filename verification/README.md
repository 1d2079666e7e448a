# Verified models of the control plane

This project models, in Dafny, the parts of OpenClaw Machines whose correctness spans several calls, stores or
machines, and proves what they promise. `dafny verify dfyconfig.toml` checks all of it.

## What is modelled

**Config diff and patch.** `json_tree`, `dot_path`, `config_ops`, `config_diff`, `config_batch`, `config_push`,
`config_exact`, `config_replace`, `config_tree`, `channel_ops`, `deep_merge`. JSON documents (section 3 of RFC 8259) are a datatype with
map-valued objects; an operation is an edit at a path of segments. The path algebra (read-back, frame, exact
commutation of incomparable edits) carries the main results: diff then apply agrees with the new config on all eleven
managed sections, in any order of the operations and through the batch's regrouping, when the names that go into
dotted paths are non-empty and dot-free; `config_exact` says exactly when it does for all configs, in the diff's own
order and through a batch. `config_replace` keeps apart what a batch does with the replace flag and without it.
`config_tree` has the two edits as they are written, on maps that are changed in place, and
proves that no other map of the tree is disturbed.

**Browser VM lifecycle.** `browser_vm` gives each handler as a program whose every call may fail, and shows that it
keeps its VM covered: wherever the VM runs, or may still turn up, the record names that host, admits it, and holds
a placement there. `browser_fleet` lets any number of VMs and their handlers interleave call by call, with crashes,
late creates, handlers that die half-way and machines that use the rest of each host; `browser_leaks` says which
handlers can leave a host's counters short, and when. `browser_handlers` has the handlers in the source's form,
each proved to do exactly what its program does, and `browser_runs` joins the two. `agent_protocol` has the agent's
half and the client between them, and when the client's answers are true.

**Migration.** `migration` is the phase machine of the workflow and of the synchronous handler over the machine's
record, its VMs and volumes on the hosts, and the recorded backups, while a live VM may write or die at any time.
`migration_safety` proves when data is never lost, when the machine is never live twice, and when what was backed up
is what the restored machine boots (all exactly). `migration_run` has the code in its own form, proved to be a run of
the phases.

**Host update operations.** `host_updates` has creators and runners under every interleaving; `host_update_registry`
the in-memory registry with its objects and copies; `host_update_runners` the goroutines as written.

**Hermes files.** `dot_env`, `dot_env_merge`, `dot_env_laws` work on the text itself: scanning, trimming, managed
blocks, sorted keys. `hermes_config` merges the YAML document as a tree.

**Logs and metrics.** `logs` has the ring buffer and its subscriber channels as objects; `vm_metrics` the ingest of a
batch with its ownership cache; `rate_limiter` the limiter and its bound.

`common` and `sums` are small shared vocabulary.

## What the proofs found

- A provider or plugin name that is empty or contains a dot breaks the push. Setting one made of dots only replaces its
  whole section; removing one unsets it, and then it matters that a batch moves sets before unsets: in the diff's own
  order the section is rebuilt when every wanted name is clean and set again, through a batch it ends up empty
  (`ConfigExact.PushInOrderAgreesIff`, `ConfigExact.SuccessfulPushAgreesIff`).
- A handler that starts before an unknown create has resolved can leave an orphan, each of the four that may start then
  (`BrowserRuns.WaitIsExactlyNeeded`).
- A delete drops the placement that is still held with the record, and its size stays debited for good. A delete can do
  so exactly when a placement is held at its start, and no other handler can (`BrowserLeaks.MayLeakIff`): its release
  fails, or, although all its calls succeed, it never tries one because the record does not say that the VM may be on an
  agent (`BrowserLeaks.SuccessfulDeleteLeaksIff`), as after a stop whose release failed (`BrowserLeaks.StopCanStrand`)
  or a reservation that could not be rolled back (`BrowserLeaks.LeakingRun`).
- A create whose connection breaks after the agent has carried it out is reported as failed
  (`AgentProtocol.CreateOnAgent`); the lifecycle results assume that this does not happen.
- A migration loses writes, and can leave the machine live on both hosts, exactly when the record denies a running
  source VM (`MigrationSafety.NothingLostIff`, `MigrationSafety.SingleHomedIff`).
- The restore itself always puts the backup on the target (`MigrationSafety.RestoreIsFaithful`), but the stop before it
  goes on when the host look-up fails; the restart then deletes the restored volume and the run still ends as restored,
  exactly when the target's agent still lists the VM (`MigrationSafety.RestartKeepsTheRestoreIff`). Every migration
  that has something to restore has such a run (`MigrationSafety.LostRestoreRun`).
- A comment in the handler expects orphaned volumes to be cleaned up (`backend/internal/api/admin_migrate.go:156-163`);
  the agent preserves them (`backend/internal/orchestrator/firecracker_linux.go:2032-2034`). The model allows both.
- Disconnecting a channel does not restore a config whose parents were not objects (`ChannelOps.DisconnectInvertsConnect`).
- Merging dotenv text twice differs from merging it once exactly when a line that the merge keeps (outside blocks and
  managed keys, not blank at the end) ends in two carriage returns (`DotEnvLaws.MergeIsIdempotent`).

## Assumptions

- Browser VMs: handlers on one VM do not interleave with each other; a failed store call changes nothing; a create
  error other than "outcome unknown" created nothing; an unknown create has resolved before the next handler on that
  VM starts; the agent client is configured; agents answer truthfully; machines never take more than a host has left.
- Migration: the machine operation keeps other lifecycle actions away, so that only the workflow changes the record;
  a VM that runs is on the host its record names when the migration starts; agents answer truthfully.
- Host updates: nothing but the three runners calls the registry with an operation's id.
- Config: `setNestedValue` and `unsetNestedValue` are taken as the meaning of set and unset on the machine; a
  config command that fails changes nothing on the machine; equal JSON text is equal value.
- Logs: the buffer size is at least one (with zero the first append panics).

## Model

| member | source | states |
|---|---|---|
| `JsonTree.GetEdited` | backend/internal/api/channel_config.go:909-956 | what a set wrote is read back, and after an unset nothing is |
| `JsonTree.GetElsewhere` | backend/internal/api/channel_config.go:909-956 | an edit changes nothing at any path that is neither above nor below its own |
| `JsonTree.EditsCommute` | backend/internal/api/channel_config.go:909-956 | two edits at incomparable paths commute exactly: the same document in either order, created parents included |
| `DotPath.SplitDotPath` | backend/internal/api/channel_config.go:959-977 | the index loop yields exactly the non-empty segments of the path |
| `DotPath.SplitJoin` | backend/internal/api/channel_config.go:959-977 | splitting undoes joining with dots, for every list of clean (non-empty, dot-free) segments |
| `DotPath.SegmentsOfMember` | backend/internal/api/channel_config.go:959-977 | `prefix.name` has the prefix's segments followed by `name` as one segment if and only if `name` is clean |
| `ConfigTree.EditBelow` | backend/internal/api/channel_config.go:909-956 | what an edit of an existing map does to the document at every path: above, at, below and beside it |
| `ConfigTree.Tree.Change` | backend/internal/api/channel_config.go:926-937 | writing or deleting one entry of one map in place changes the document by exactly that edit and disturbs no other map |
| `ConfigTree.Tree.Parent` | backend/internal/api/channel_config.go:915-924 | the walk to the parent map, which makes missing maps on the way and does not change where the edit leads |
| `ConfigTree.Tree.SetNestedValue` | backend/internal/api/channel_config.go:909-938 | on maps changed in place: the new document is the old one edited at the path; with text that is not valid JSON only the parents are made; error exactly for an empty path or invalid JSON |
| `ConfigTree.Tree.UnsetNestedValue` | backend/internal/api/channel_config.go:941-956 | on maps changed in place: the value at the path is gone and nothing else has changed |
| `ConfigTree.MakingParents` | backend/internal/api/channel_config.go:915-924 | making a missing parent first leads to the same document as editing below it directly |
| `ConfigTree.NothingToDrop` | backend/internal/api/channel_config.go:947-955 | an unset whose parents are not objects, or whose key is absent, changes nothing |
| `ConfigOps.OrderDoesNotMatter` | backend/internal/api/channel_config.go:817-826 | any permutation of operations at pairwise incomparable paths yields the same document |
| `ConfigOps.ReadElsewhere` | backend/internal/api/channel_config.go:817-826 | a path incomparable to all operations reads as before |
| `ConfigOps.ReadWritten` | backend/internal/api/channel_config.go:817-826 | an operation's path reads what it wrote when all later operations lie elsewhere |
| `ConfigOps.AbsentStays` | backend/internal/api/channel_config.go:941-956 | what is absent stays absent under any unsets, and under any operations elsewhere |
| `ConfigOps.WhatAnOperationLeaves` | backend/internal/api/channel_config.go:801-834 | what an operation leaves at its path: the decoded value or the text itself, what was there when the value fails to decode, nothing after an unset; without a path, and for an unknown operation, nothing happens |
| `ConfigOps.GetNestedMap` | backend/internal/api/config_ops.go:152-162 | the cursor loop returns the map at the path, and nothing when any step is not a map |
| `ConfigOps.GetNestedValue` | backend/internal/api/config_ops.go:165-177 | the value at the path, JSON null reading as absent |
| `ConfigOps.DiffKeyedSection` | backend/internal/api/config_ops.go:95-125 | whatever order the two maps are visited in, the result lists, once each, an unset for every name gone and a set for every name new or changed, unsets first |
| `ConfigDiff.WholeSectionAgrees` | backend/internal/api/config_ops.go:129-149 | for all configs, whatever the names are: after the push a section set or unset as a whole reads as in the new config |
| `ConfigDiff.BuildConfigOps` | backend/internal/api/config_ops.go:17-91 | fails exactly when a document does not parse to an object; otherwise an operation is listed, once, if and only if it is needed: a replacement of an owned object that the new config has, or a set or unset at a path at which the two configs read differently, null reading as absent; with equal configs only the replacements are left, and in every section unsets come before sets |
| `ConfigDiff.DiffIsWhatIsNeeded` | backend/internal/api/config_ops.go:17-149 | the operations put together section by section are exactly the needed ones, for all configs and whatever the names are |
| `ConfigDiff.SectionPath` | backend/internal/api/config_ops.go:28-88 | the eleven dotted paths as they are written |
| `ConfigDiff.SectionsIncomparable` | backend/internal/api/config_ops.go:28-88 | the paths of any two managed sections are incomparable |
| `ConfigDiff.DiffOpsIncomparable` | backend/internal/api/config_ops.go:28-88 | all operations of one diff lie at pairwise incomparable paths, when the names are clean |
| `ConfigDiff.PushAgrees` | backend/internal/api/config_ops.go:17-149 | diff then apply: for all old and new configs with clean names, in any order of the operations, the result agrees with the new config on every managed section |
| `ConfigExact.PushInOrderAgreesIff` | backend/internal/api/config_ops.go:17-125 | for all old and new configs: applied in the order of the diff, the operations make the document agree with the new config on all managed sections if and only if in each keyed section every name to be set or unset is clean, or, where a name of dots only is removed, every wanted name is clean and new or changed |
| `ConfigExact.SuccessfulPushAgreesIff` | backend/internal/agentclient/config.go:78-168 | for all old and new configs: pushed through a batch without errors, which moves sets before unsets, they do so if and only if in each keyed section every name to be set or unset is clean, or, where a name of dots only is removed, the new config wants no name at all |
| `ConfigExact.PushAgreesIffNamesAreClean` | backend/internal/api/config_ops.go:95-125 | in any order of the operations whatsoever: unless a name of dots only is removed, the push is correct if and only if every provider and plugin name it touches is clean |
| `ConfigExact.DotsOnlyNameDisagrees` | backend/internal/api/config_ops.go:111-122 | when the last write of a whole section sets a name made of dots only, the section becomes that name's value: the push is then always wrong |
| `ConfigExact.UncleanNameDisagrees` | backend/internal/api/config_ops.go:95-125 | a name with a dot, or empty, that needs an operation is not repaired by it |
| `ConfigExact.DotsOnlyRemovalEmptiesTheSection` | backend/internal/api/config_ops.go:102-108 | once a whole section has been unset it is empty at the end, when only unsets or operations elsewhere follow, for every document |
| `ConfigExact.EmptiedSection` | backend/internal/agentclient/config.go:83-98 | with the sets first, a section from which a name made of dots only is removed ends up empty |
| `ConfigDiff.DriftIsRepaired` | backend/internal/api/config_ops.go:49-70 | the two owned model objects are right after a push even on a machine whose config has drifted from the stored one |
| `ConfigDiff.PushKeepsTheRest` | backend/internal/api/config_ops.go:28-88 | frame: every path incomparable to the managed sections reads the same before and after, whatever the names are |
| `ConfigBatch.Partition` | backend/internal/agentclient/config.go:83-98 | the loop splits the operations into replacements, sets and unsets, each in order, and stops at an unknown one |
| `ConfigBatch.Decode` | backend/internal/agentclient/config.go:107-124 | every value is an entry or an error, never both: the entries are the decodable values in order, the errors one for each value that is not valid JSON, in order |
| `ConfigBatch.Batch.RunSetBatch` | backend/internal/agentclient/config.go:103-146 | one command with the decodable entries and exactly the flag it was called with, none when there are none; its errors, `modified` and the document follow the command's fate |
| `ConfigBatch.RunConfigBatch` | backend/internal/agentclient/config.go:78-168 | unknown operations send nothing; otherwise every command holds only values of set operations that carry its own replace flag, or is one of the unsets; every operation that decodes is in such a command; replacements go first and unsets last; a repair follows if a command succeeded; the document is what the successful ones made, and there is no error exactly when all decoded and all succeeded |
| `ConfigBatch.RegroupedIsPermutation` | backend/internal/agentclient/config.go:83-98 | regrouping into replacements, sets and unsets loses and repeats nothing |
| `ConfigBatch.PlanMeansRegrouped` | backend/internal/agentclient/config.go:148-159 | the commands together do what the regrouped operations do one by one |
| `ConfigBatch.SuccessfulBatchEqualsInOrder` | backend/internal/agentclient/config.go:78-168 | a batch without errors leaves the document that applying the operations in the given order produces |
| `ConfigPush.PatchAssembledConfig` | backend/internal/api/channel_config.go:801-834 | the stored config becomes the in-order application of the operations, invalid values skipped, and its version grows by one |
| `ConfigPush.SuccessfulPushAgrees` | backend/internal/agentclient/config.go:78-168 | a diff pushed through a batch without errors leaves the machine agreeing with the new config on every managed section |
| `ConfigPush.FailingPushKeepsTheRest` | backend/internal/agentclient/config.go:78-168 | however many of its commands fail, a push touches no path away from the managed sections |
| `ConfigReplace.OwnedObjectsAreReplaced` | backend/internal/agentclient/config.go:126-151 | whatever a set without the replace flag makes of what is there: once the batch of replacements has succeeded, the two owned model objects are those of the new config, on a machine that may have drifted and however many of the other commands fail |
| `ChannelOps.FilterInPlace` | backend/internal/api/channel_config.go:877-884 | compaction over the same backing array equals a plain filter |
| `ChannelOps.PluginsAllowOps` | backend/internal/api/channel_config.go:842-894 | one set of the whole allow list with the plugin added once, or removed |
| `ChannelOps.ConnectWrites` | backend/internal/api/channel_config.go:190-205 | for every config: after connect the channel is at its path, its plugin entry is enabled, and its name is in the allow list, added at the end unless it was there |
| `ChannelOps.ConnectKeepsTheRest` | backend/internal/api/channel_config.go:190-205 | connect changes nothing at any other path |
| `ChannelOps.DisconnectRemoves` | backend/internal/api/channel_config.go:303-313 | for every config: after disconnect the channel and its whole plugin entry are gone, and the allow list is the old one without its name, or null when it held none |
| `ChannelOps.DisconnectKeepsTheRest` | backend/internal/api/channel_config.go:303-313 | disconnect changes nothing at any other path |
| `ChannelOps.CycleAt` | backend/internal/api/channel_config.go:190-205 | away from the allow list and the parents, every path reads after connect and disconnect as before |
| `ChannelOps.CycleCleansUp` | backend/internal/api/channel_config.go:303-313 | after connect and disconnect the channel and its plugin entry are gone and the allow list is the old one |
| `ChannelOps.DisconnectInvertsConnect` | backend/internal/api/channel_config.go:190-205 | disconnect undoes connect at every path, up to empty parents and an absent versus empty allow list, if and only if the parents were objects or absent and the allow list absent, null or a list of names |
| `DeepMerge.DeepCopyMap` | backend/internal/api/channel_config.go:980-989 | the copy equals the map |
| `DeepMerge.DeepMergeMap` | backend/internal/api/channel_config.go:993-1010 | the loop over the overlay, in any order, computes the merge |
| `DeepMerge.OverlayLeafWins` | backend/internal/api/channel_config.go:993-1010 | every leaf of the overlay is in the merge |
| `DeepMerge.BaseIsKept` | backend/internal/api/channel_config.go:993-1010 | a path the overlay leaves alone reads as in the base |
| `DeepMerge.LeavesOfMerge` | backend/internal/api/channel_config.go:993-1010 | exactly which leaves the merge has, from the base's and the overlay's |
| `DeepMerge.MergeWithItself` | backend/internal/api/channel_config.go:993-1010 | merge(a, a) = a |
| `DeepMerge.MergeAbsorbs` | backend/internal/api/channel_config.go:993-1010 | merge(merge(a, b), b) = merge(a, b) |
| `DeepMerge.EmptyObjectReplacesLeaf` | backend/internal/api/channel_config.go:993-1010 | an empty object in the overlay replaces a leaf of the base although it has no leaves itself |
| `BrowserVm.HandlersAreSafe` | backend/internal/api/browser_vms.go:311-470 | each of the five handlers, from any covered VM without an unresolved create, keeps it covered however its calls end and whenever it crashes |
| `BrowserVm.StartIsSafe` | backend/internal/api/browser_vms.go:382-464 | the start program: reserve, assign, create, wait, with all its compensating writes |
| `BrowserVm.StopIsSafe` | backend/internal/api/browser_vms.go:537-574 | the stop program forgets the host only after the agent has destroyed the VM |
| `BrowserVm.DeleteIsSafe` | backend/internal/api/browser_vms.go:224-288 | the delete program drops the record only when no agent can have the VM |
| `BrowserVm.ReconcileIsSafe` | backend/internal/api/admin_browser_vms.go:64-134 | the reconcile program releases only what the agent says is gone |
| `BrowserVm.HeartbeatIsSafe` | backend/internal/api/agent_heartbeat.go:52-65 | the heartbeat's release on an agent that no longer knows the VM |
| `BrowserVm.FewerPlacesStaySafe` | backend/internal/api/browser_vms.go:25-35 | crashes never make a safe handler unsafe |
| `BrowserFleet.StepKeepsInv` | backend/internal/api/browser_vms.go:311-470 | every step of any handler, its end in the middle when the control plane dies, any crash, any late arrival and any machine keeps every VM covered and every host's counters balanced, over any number of VMs |
| `BrowserFleet.RunKeepsInv` | backend/internal/api/browser_vms.go:311-580 | the same in every state of every run |
| `BrowserFleet.NoOrphan` | backend/internal/api/browser_vms.go:25-35 | in every reachable state a VM that runs on host h has a record that names h and admits that the VM may be there, and a placement on h |
| `BrowserFleet.AtMostOneHost` | backend/internal/api/browser_vms.go:382-464 | a browser VM never runs on two hosts |
| `BrowserFleet.DeleteDropsOnlyTheDead` | backend/internal/api/browser_vms.go:224-288 | a record is dropped only when the VM runs nowhere and no create for it is on its way |
| `BrowserFleet.CapacityCoversLiveness` | backend/internal/store/postgres.go:4431-4545 | on every host, in every reachable state, live VMs need no more than the held placements, these plus what leaked is exactly what the counters show, and with the machines it all fits |
| `BrowserLeaks.MayLeakIff` | backend/internal/api/browser_vms.go:224-288 | for every handler and every VM with a record, over all ways its calls can end, with crashes and late arrivals in between: some execution leaks capacity if and only if the handler is a delete and a placement is held when it starts |
| `BrowserLeaks.SuccessfulDeleteLeaksIff` | backend/internal/api/browser_vms.go:254-288 | a delete all of whose calls succeed leaks if and only if a placement is held although the record does not say that the VM may be on an agent: the release is then never tried |
| `BrowserLeaks.HeldPlacementCanLeak` | backend/internal/api/browser_vms.go:224-288 | from every reachable fleet, the delete of a VM that holds a placement can leave the host short of exactly the VM's size |
| `BrowserLeaks.StopCanStrand` | backend/internal/api/browser_vms.go:562-574 | a stop whose release fails completes and leaves a record without a host over the held placement, which the next delete drops although all its calls succeed |
| `BrowserLeaks.LeakingRun` | backend/internal/api/browser_vms.go:262-288 | a whole run, for any size: a reservation that could not be rolled back, then a delete none of whose calls fails; the host stays full although nothing is on it |
| `BrowserFleet.DropsHeldIff` | backend/internal/api/browser_vms.go:262-288 | told from the state before: a call drops a held placement exactly when it deletes the record over it, and succeeds |
| `BrowserFleet.OnlyDroppingAHeldPlacementLeaks` | backend/internal/api/browser_vms.go:262-288 | a step adds to a host's leak exactly the size of the VM whose held placement was dropped with its record, and nothing when there is none |
| `BrowserFleet.LeakIsWhatWasDropped` | backend/internal/api/browser_vms.go:262-288 | in every reachable state a host's counters exceed what its held placements need by exactly the sizes dropped so far |
| `BrowserHandlers.ControlPlane.HandleStart` | backend/internal/api/browser_vms.go:311-470 | the handler, branch by branch, leaves the tables and agents exactly as the start program with the same call outcomes; told from these outcomes alone: its reply, refused exactly for running, provisioning and placed failed VMs, and the record, placement and liveness it leaves in every case; an accepted start has the VM live on the reserved host, assigned and placed there, and recorded as running if the last write succeeded |
| `BrowserHandlers.AcceptedStart` | backend/internal/api/browser_vms.go:382-464 | whenever a start is accepted, the VM runs on the reserved host and its record and placement name it; the status is running if the last write succeeded |
| `BrowserHandlers.SmoothStart` | backend/internal/api/browser_vms.go:382-464 | with a place and no failing call, a start is accepted |
| `BrowserHandlers.ControlPlane.HandleStop` | backend/internal/api/browser_vms.go:506-580 | the stop handler runs the stop program; refused exactly in the other statuses, and then changes nothing; told from the call outcomes alone: when the reply is accepted, host unavailable or agent error, and the record, placement and liveness it leaves; an accepted stop had no host or destroyed the VM |
| `BrowserHandlers.ControlPlane.HandleDelete` | backend/internal/api/browser_vms.go:224-288 | the delete handler runs the delete program; told from the call outcomes alone: its reply and what it leaves; an accepted delete has dropped record and placement, after destroying a VM that may exist |
| `BrowserHandlers.ControlPlane.ReconcileBrowserVM` | backend/internal/api/admin_browser_vms.go:64-134 | reconciliation runs its program; told from the call outcomes alone: when it counts as done, and the record, placement and liveness it leaves; without an assigned host it changes nothing |
| `BrowserHandlers.ControlPlane.ReplayPairing` | backend/internal/api/agent_heartbeat.go:39-65 | the heartbeat's pairing replay runs its program exactly for running, assigned VMs; a VM the agent does not have ends failed, without host and placement, as far as the writes succeed, and any other is left as it is |
| `BrowserRuns.OutcomeIsReached` | backend/internal/api/browser_vms.go:311-580 | whatever a handler computes is reached call by call as a run of the fleet, and the invariant holds where it ends |
| `BrowserRuns.HandlerKeepsInv` | backend/internal/api/browser_vms.go:311-580 | one whole handler, from what it finds in the tables, keeps the fleet covered and balanced |
| `BrowserRuns.UnknownCreate` | backend/internal/api/browser_vms.go:411-425 | a create of unknown outcome leaves a record that still covers the host |
| `BrowserRuns.WaitIsExactlyNeeded` | backend/internal/api/browser_vms.go:506-580 | for each of the five handlers and every covered VM it may run on: it keeps the VM covered, wherever it is stopped and however its calls end, with crashes and late arrivals in between, if and only if no create of the VM is unresolved when it starts |
| `BrowserRuns.NotWaitingOrphans` | backend/internal/api/browser_vms.go:224-288 | every handler that may run while a create is unresolved can complete with truthful answers and leave an orphan; the start handler may not run then |
| `BrowserRuns.StopDuringUnknownCreateOrphans` | backend/internal/api/browser_vms.go:506-580 | for instance: a stop before the create has resolved is allowed, succeeds throughout, and a create that lands afterwards is an orphan |
| `AgentProtocol.Agent.HandleCreateBrowserVM` | backend/internal/agentapi/handlers.go:886-952 | which requests the agent refuses; the VM is there afterwards exactly when it accepted the request or had it before |
| `AgentProtocol.Agent.HandleDestroyBrowserVM` | backend/internal/agentapi/handlers.go:955-971 | an answer of success means the VM is gone, also when it was not there; only a VM that is there can fail to go |
| `AgentProtocol.Agent.HandleBrowserVMHealth` | backend/internal/agentapi/handlers.go:973-1019 | "not found" exactly for a VM the agent does not have; ready exactly when its browser is |
| `AgentProtocol.Client.CreateBrowserVM` | backend/internal/agentclient/client.go:789-842 | the outcome is called unknown exactly after a timeout or a cancellation, and created exactly when the agent's acceptance arrived |
| `AgentProtocol.Client.DestroyBrowserVM` | backend/internal/agentclient/client.go:867-886 | reports success exactly when the agent's answer of success arrived; the VM is then not on the agent |
| `AgentProtocol.Client.GetBrowserVMHealth` | backend/internal/agentclient/client.go:845-864 | each of its answers is the agent's own: gone, ready, not ready, and none when nothing usable arrived; gone and there are true when they are reported |
| `AgentProtocol.CreateOnAgent` | backend/internal/agentclient/client.go:789-842 | through the client's create: afterwards the agent has nothing that the outcome the handlers act on does not cover, if and only if the request was not carried out by a connection that then broke |
| `AgentProtocol.BrokenCreateOrphans` | backend/internal/agentclient/client.go:789-842 | otherwise: a connection that breaks after the agent has carried the create out is answered as failed, and the start handler goes on to give up the host on which the VM runs |
| `AgentProtocol.DestroyOnAgent` | backend/internal/agentclient/client.go:867-886 | through the client's destroy: the same in every case, and the handler goes on as its program does |
| `AgentProtocol.HealthOnAgent` | backend/internal/agentclient/client.go:845-864 | through the client's health check: its answers are among those the reconcile program allows for |
| `MigrationSafety.RunKeepsInv` | backend/internal/api/admin_migrate_workflow.go:201-483 | the invariant of every state of every run, forced or not, of the workflow and of the handler, with VMs writing and dying at any time |
| `MigrationSafety.NothingLostIff` | backend/internal/api/admin_migrate_workflow.go:216-328 | unforced migrations from a state never lose the source's latest contents, in any state of any run, if and only if the record does not deny a running source VM (or the request is refused) |
| `MigrationSafety.LossyRun` | backend/internal/api/admin_migrate_workflow.go:241-266 | otherwise: the run in which the source keeps writing after the backup and is then destroyed |
| `MigrationSafety.SingleHomedIff` | backend/internal/api/admin_migrate_workflow.go:241-377 | the machine is never live on two hosts, in any run, forced or not, under exactly the same condition |
| `MigrationSafety.DoubleHomedRun` | backend/internal/api/admin_migrate_workflow.go:268-377 | otherwise: the run in which the source's agent refuses the destroy and the target is started beside it |
| `MigrationSafety.OnlyForceSkipsTheBackup` | backend/internal/api/admin_migrate_workflow.go:268-328 | whatever the record says, the destroy phase is reached without a recorded backup of a machine with a source only under force |
| `MigrationSafety.RestoreIsFaithful` | backend/internal/api/admin_migrate_workflow.go:420-450 | with no condition: when the restore is done, the volume on the machine's current host, the target, holds exactly a recorded backup; and exactly what the source last wrote, if the record was true at the start |
| `MigrationSafety.RestartKeepsTheRestoreIff` | backend/internal/api/admin_migrate_workflow.go:452-482 | in any run: once the backup is restored, every way of going on that ends migrated and restored has booted exactly the backup, if and only if the target's agent no longer lists the VM |
| `MigrationSafety.RestoredIsWhatWasBackedUp` | backend/internal/api/admin_migrate_workflow.go:392-482 | a whole run with a true record that ends migrated and restored booted the machine, on the host its record names, from exactly what the source last wrote, when no restart met a VM the target's agent still listed |
| `MigrationSafety.LostRestoreRun` | backend/internal/machines/runtime.go:1276-1292 | otherwise: a whole run, from any state from which an accepted migration has something to back up, in which the stop goes on without the agent, the restart destroys the restored volume, and the run ends migrated and restored with other contents |
| `MigrationSafety.EveryRestoreIsFaithfulIff` | backend/internal/api/admin_migrate_workflow.go:392-482 | from a state a migration may start in, all runs that end migrated and restored booted what the source last wrote, if and only if there is nothing to back up or the request is refused |
| `MigrationRun.Mover.PrepareMigration` | backend/internal/api/admin_migrate_workflow.go:511-541 | a request is turned down if and only if something it needs cannot be had, its target is the machine's host, there is a host that can neither be backed up nor be left by force, or the handler finds a running machine without a host; the plan of an accepted one has the machine's host as source, and a backup exactly when there is one and backups are on |
| `MigrationRun.Mover.StopSourceMachine` | backend/internal/api/admin_migrate_workflow.go:241-266 | stops only what the record calls running; gives up after four attempts, the handler after one, and aborts |
| `MigrationRun.Mover.CreateMigrationBackup` | backend/internal/api/admin_migrate.go:375-417 | a backup counts only when it is taken and recorded; it holds what the source volume holds |
| `MigrationRun.Mover.Backup` | backend/internal/api/admin_migrate_workflow.go:268-315 | goes on without a backup under force only; otherwise tries once more (the handler does not), finalizes the stopped source and fails |
| `MigrationRun.Mover.FinalizeStoppedSource` | backend/internal/api/admin_migrate.go:419-432 | the abort leaves the machine assigned to its source |
| `MigrationRun.Mover.DestroySourceMachine` | backend/internal/api/admin_migrate_workflow.go:316-329 | the agent's answer is ignored |
| `MigrationRun.Mover.ReleaseSourceMachine` | backend/internal/api/admin_migrate_workflow.go:330-347 | release of the machine from its source, given up after four attempts, by the handler after one |
| `MigrationRun.Mover.StartOnTarget` | backend/internal/api/admin_migrate_workflow.go:349-369 | start on the target host |
| `MigrationRun.Mover.StopWithOperation` | backend/internal/machines/runtime.go:1228-1327 | the stop may go on without the agent when the host cannot be looked up or is unreachable |
| `MigrationRun.Mover.WaitForMachineRunningOnHost` | backend/internal/api/admin_migrate_workflow.go:554-624 | succeeds exactly when the VM is seen running, its route is set and its placement activated; records running then, error when it is seen failed, given up on or cannot be routed, stopped when it is seen stopped, and leaves the status when it cannot be stored |
| `MigrationRun.Mover.PollUntilSettled` | backend/internal/api/admin_migrate_workflow.go:554-624 | ends with the first poll that settles it, with the thirtieth error in a row, or at the deadline (or cancellation), and not before; a VM that is still starting does not settle it; an answer that does is what the agent has at that moment; polling changes nothing itself |
| `MigrationRun.GivesUpForAReason` | backend/internal/api/admin_migrate_workflow.go:562-571 | a wait given up before the deadline has seen thirty failed polls in a row and no decisive one |
| `MigrationRun.Mover.CleanupFailedTarget` | backend/internal/api/admin_migrate_workflow.go:711-735 | best-effort destroy and hard release of a target that did not come up: the machine ends without a host and stopped, or as it was recorded |
| `MigrationRun.Mover.RestoreSnapshot` | backend/internal/api/admin_migrate_workflow.go:420-447 | restores the snapshot on the host the record names at that moment |
| `MigrationRun.Mover.Migrate` | backend/internal/api/admin_migrate_workflow.go:201-483 | the workflow as written, and the synchronous handler: a run of the phases that finishes, after which the machine is single-homed and, unforced, no data is lost; a request that is turned down fails and changes neither record nor backups; an accepted one during which no call to the outside fails ends migrated, or migrated and restored when there was a source with backups on, with the machine running on the target from the snapshot |
| `MigrationRun.Mover.AwaitPoller` | backend/internal/api/admin_migrate.go:337-342 | the handler's wait, settled by the poller in the background: the machine is recorded as running, or as failed after the cleanup |
| `HostUpdates.StepKeepsInv` | backend/internal/api/admin_host_update_operations.go:82-165 | every creator and every runner call keeps: one active operation per host, statuses in step with the runner's place, completion time exactly when over |
| `HostUpdates.AtMostOneActive` | backend/internal/api/admin_host_update_operations.go:82-114 | under every interleaving at most one operation of a host is queued or running |
| `HostUpdates.RunnersExcludeEachOther` | backend/internal/api/admin_host_update_operations.go:189-352 | two runners of one host are never both at work |
| `HostUpdates.CompletedExactlyWhenOver` | backend/internal/api/admin_host_update_operations.go:144-152 | the completion time is set exactly when the status is terminal |
| `HostUpdates.OverIsForGood` | backend/internal/api/admin_host_update_operations.go:127-165 | an operation that is over never changes again, in any field |
| `HostUpdates.IdentityStays` | backend/internal/api/admin_host_update_operations.go:154-165 | operations are never lost, and host, kind and creation time never change |
| `HostUpdates.RunnersEnd` | backend/internal/api/admin_host_update_operations.go:189-352 | every runner makes at most as many moves as its program is long |
| `HostUpdates.NeverStuck` | backend/internal/api/admin_host_update_operations.go:189-352 | the runner of an active operation can always make a move |
| `HostUpdates.HaltedIsOver` | backend/internal/api/admin_host_update_operations.go:189-359 | a runner has nothing left to do exactly when its operation is succeeded, timed out or failed |
| `HostUpdates.ALateMarkWouldRevive` | backend/internal/api/admin_host_update_operations.go:127-133 | the registry alone does not protect a finished operation: the order of each runner's calls does |
| `HostUpdateRegistry.Registry.CreateHostUpdateOperation` | backend/internal/api/admin_host_update_operations.go:82-114 | refuses exactly when the host has an active operation or all five ids are taken; otherwise stores a queued operation under the first free id and returns a copy, not the stored object |
| `HostUpdateRegistry.Registry.GetHostUpdateOperation` | backend/internal/api/admin_host_update_operations.go:116-125 | a fresh copy of what is stored |
| `HostUpdateRegistry.Registry.Update` | backend/internal/api/admin_host_update_operations.go:154-165 | changes exactly the one operation in place; an unknown id changes nothing |
| `HostUpdateRunners.Server.StartOperation` | backend/internal/api/admin_hosts.go:314-326 | a handler's creation is one step, and its runner starts at the head of its program |
| `HostUpdateRunners.Server.Meanwhile` | backend/internal/api/admin_host_update_operations.go:154-165 | whatever other handlers and runners do, a runner's own operation is untouched |
| `HostUpdateRunners.Server.RunTriggerHostUpdateOperation` | backend/internal/api/admin_host_update_operations.go:189-216 | the runner as written, with everybody else's calls in between, is a run and leaves its operation over: succeeded if and only if every outside call went well, timed out if and only if only the wait for the host did not, failed otherwise; it asks nothing more after the first call that goes badly |
| `HostUpdateRunners.Server.RunDrainHostUpdateOperation` | backend/internal/api/admin_host_update_operations.go:218-310 | the same for draining; once the machines were stopped the operation counts as stopped and failed exactly the machines that did and did not |
| `HostUpdateRunners.Server.StopMachines` | backend/internal/api/admin_host_update_operations.go:243-289 | the machines stop all at once and finish in any order; every running machine ends up exactly once among the stopped or the failed ones |
| `HostUpdateRunners.Server.RunConfigureHostBrowserStorageOperation` | backend/internal/api/admin_host_update_operations.go:312-352 | the same as the first for browser storage |
| `DotEnv.ParseDotEnvAssignments` | backend/cmd/ocm-hermes-config/main.go:284-297 | later assignments win; keys are valid and values trimmed |
| `DotEnv.AssignmentsAreReadable` | backend/cmd/ocm-hermes-config/main.go:284-331 | every key read is valid and every value trimmed and on one line |
| `DotEnv.LinesOfText` | backend/cmd/ocm-hermes-config/main.go:239-281 | scanning written lines gives them back, but for one carriage return at the end of each |
| `DotEnvMerge.UnmanagedLines` | backend/cmd/ocm-hermes-config/main.go:237-259 | the scan keeps, in order, the lines outside blocks that assign no managed key, with unclosed and stray markers as they are |
| `DotEnvMerge.SortedListingIsUnique` | backend/cmd/ocm-hermes-config/main.go:265-269 | sorting makes the result independent of the order the map yields its keys in |
| `DotEnvMerge.MergeDotEnv` | backend/cmd/ocm-hermes-config/main.go:227-282 | the function as written computes the merge |
| `DotEnvMerge.BlockAsWritten` | backend/cmd/ocm-hermes-config/main.go:260-282 | whatever there was before, the merged text ends with the block as it is written: its marker, one line for every desired key in ascending order, its end marker |
| `DotEnvLaws.OutsideOfMerged` | backend/cmd/ocm-hermes-config/main.go:227-282 | outside its block a merged text has the kept lines and at most one blank line |
| `DotEnvLaws.MergeAbsorbsIff` | backend/cmd/ocm-hermes-config/main.go:227-282 | for every text: merging d1 and then d2 equals merging d2 alone if and only if no line of the user's own assigns a key that only d1 manages and no line that d2's merge keeps still ends in a carriage return after scanning |
| `DotEnvLaws.MergeIsIdempotent` | backend/cmd/ocm-hermes-config/main.go:227-282 | for every text, whatever markers it has: merging the same text again changes nothing if and only if no line that the merge keeps still ends in a carriage return after scanning |
| `DotEnvLaws.LinesWithoutCrsAreStable` | backend/cmd/ocm-hermes-config/main.go:227-282 | in particular a text none of whose scanned lines ends in a carriage return is not changed by merging again, whatever is merged |
| `DotEnvLaws.TwoCrsAreNotStable` | backend/cmd/ocm-hermes-config/main.go:239-281 | for instance: a line that ends in three characters CR CR LF changes with each of two merges |
| `DotEnvLaws.ReadBack` | backend/cmd/ocm-hermes-config/main.go:227-331 | for every text: reading the merged file gives the desired value for each desired key, nothing for other managed keys, and for any other key what the user's lines outside blocks assign |
| `DotEnvLaws.UserLinesStay` | backend/cmd/ocm-hermes-config/main.go:227-282 | for every text: the user's kept lines stay in their order, up to blank lines at the end and one further carriage return at the end of a line; they stay exactly as they are if and only if none has one |
| `DotEnvLaws.EntryReads` | backend/cmd/ocm-hermes-config/main.go:275-277 | an entry of the block reads back as the key and value it was written for |
| `HermesConfig.MergeHermesConfig` | backend/cmd/ocm-hermes-config/main.go:170-204 | the loops, in any order, compute the merge |
| `HermesConfig.SectionOfMerged` | backend/cmd/ocm-hermes-config/main.go:180-184 | owned sections come from the desired config when it has them; everything else stays |
| `HermesConfig.SectionsByName` | backend/cmd/ocm-hermes-config/main.go:180-184 | by name: model, terminal, dashboard and browser come from the desired config when it has them; every other section but the platforms is the user's |
| `HermesConfig.PlatformsOfMerged` | backend/cmd/ocm-hermes-config/main.go:186-197 | managed platforms come from the desired config only, the user's stay |
| `HermesConfig.PlatformsByName` | backend/cmd/ocm-hermes-config/main.go:186-197 | by name: api_server, telegram, discord and slack are there exactly as the desired config has them; of the others the user's stay unless the desired config has them too |
| `HermesConfig.MergeAbsorbsIff` | backend/cmd/ocm-hermes-config/main.go:170-204 | a second merge makes up for the first if and only if the first brought in nothing new that the second neither replaces nor manages |
| `HermesConfig.MergeIsIdempotent` | backend/cmd/ocm-hermes-config/main.go:170-204 | merging the same config again changes nothing |
| `Logs.BufferMovesOn` | backend/internal/agentapi/logs.go:48-51 | a full buffer gives up its oldest entry, and only that, for a new one |
| `Logs.Channel.Offer` | backend/internal/agentapi/logs.go:54-61 | a send that gives up exactly when the channel is full, and keeps the first 64 later entries whatever happens |
| `Logs.LogManager.Append` | backend/internal/agentapi/logs.go:37-62 | the entry goes to the end of its machine's buffer and of the queue of every subscriber with room, a full one misses it; nothing is sent on a closed channel; other machines' buffers and queues are untouched |
| `Logs.LogManager.AppendWithSource` | backend/internal/agentapi/logs.go:65-89 | the same with a source |
| `Logs.LogManager.Subscribe` | backend/internal/agentapi/logs.go:93-107 | a new channel that holds the buffer marked as replay; no send waits |
| `Logs.LogManager.Unsubscribe` | backend/internal/agentapi/logs.go:110-126 | takes out exactly that channel, keeps the others' order, closes it once; a channel that is not listed is left alone |
| `Logs.ShiftOut` | backend/internal/agentapi/logs.go:117 | the in-place shift removes one position and keeps the order of the rest |
| `Logs.RemovingStaysDistinct` | backend/internal/agentapi/logs.go:110-126 | no channel is ever in two lists or twice in one |
| `Logs.LogManager.Clear` | backend/internal/agentapi/logs.go:137-141 | an empty buffer that starts anew; subscribers are untouched |
| `Logs.LogManager.WhatASubscriberGets` | backend/internal/agentapi/logs.go:37-107 | everything a subscriber is sent: the last entries of the buffer when it subscribed, as replay, then later entries in order without repetition, at least the first 64 of them |
| `VmMetrics.FreshPointsAreFaithful` | backend/internal/api/agent_vm_metrics.go:175-205 | what static validation lets through: in order, exactly the points whose time is not skewed, each with its own reading, its time cut to the second and within five minutes, nothing negative |
| `VmMetrics.PointIsKeptIff` | backend/internal/api/agent_vm_metrics.go:172-215 | a point is let through if and only if it can be kept at all; it is left out without failing the batch if and only if it names a VM and its time, cut to the second, is more than five minutes off |
| `VmMetrics.ParseAndStaticValidate` | backend/internal/api/agent_vm_metrics.go:172-215 | the first malformed point fails the batch; otherwise the fresh points stay in order and the rest is counted |
| `VmMetrics.CacheKeyIsInjective` | backend/internal/api/agent_vm_metrics.go:231-232 | the cache key tells kinds and ids apart |
| `VmMetrics.CachingStaysCoherent` | backend/internal/api/agent_vm_metrics.go:231-242 | what is cached is what a look-up gives |
| `VmMetrics.ResolveOwnershipAndFinalCheck` | backend/internal/api/agent_vm_metrics.go:224-273 | the cached loop gives what looking every point up gives, errors included, with one query per VM |
| `VmMetrics.DirectIsFaithful` | backend/internal/api/agent_vm_metrics.go:283-308 | what is stored is exactly the points whose VM the tables place on the posting host and that keep twice its CPUs, each under the account of its VM and with its own reading, in their order |
| `VmMetrics.HandleAgentVMMetrics` | backend/internal/api/agent_vm_metrics.go:86-158 | answered exactly when shape, token, rate, static checks, look-ups and insert succeed; then accepted plus dropped is the number of points sent; which requests get 400, 401 and 429; only a well-shaped request with the host's token uses up a slot |
| `RateLimiter.AcceptedAreSpaced` | backend/internal/api/agent_vm_metrics.go:64-74 | accepted times of a host increase by at least a second, whatever times the calls carry |
| `RateLimiter.RateIsBounded` | backend/internal/api/agent_vm_metrics.go:64-74 | any window of L holds at most floor(L / 1 s) + 1 acceptances of a host |
| `RateLimiter.SteadyCallsAreAccepted` | backend/internal/api/agent_vm_metrics.go:64-74 | the bound is reached: calls a second apart are all accepted |
| `RateLimiter.HostsAreIndependent` | backend/internal/api/agent_vm_metrics.go:64-74 | only a host's own calls decide what it is granted |

## Left out

- ConfigExact.PushAgreesIffNamesAreClean: says nothing about a push that removes a name made of dots only, because the outcome then depends on the order of the operations; ConfigExact.PushInOrderAgreesIff and ConfigExact.SuccessfulPushAgreesIff cover the two orders the code uses, for all configs.
- MigrationSafety.RestoredIsWhatWasBackedUp: assumes that the target's agent no longer lists the VM at a restart, because the code does not ensure it; MigrationSafety.RestartKeepsTheRestoreIff shows that this is exactly what is needed.
- BrowserHandlers.ControlPlane.HandleStart: does not model account ownership, host pinning, region and rootfs checks at the head of the handler, which only refuse.
- HTTP routing, request decoding, response writing, logging and activity events.
- The bookkeeping of host capacity during a migration and on its abort, and the ingress, tunnel and key-value routes.
- Recovery of a workflow whose process died in the middle of a step.
- Browser pairing as an all-or-nothing invariant; unpairing on stop, delete and machine start.
- The loop over reconcile candidates, which only counts successes.
- Restarting drained machines after an update, and the progress manager's channels.
- The line scanner's token limit; floating-point rounding of the CPU limit; invalid UTF-8.
- A root document that is JSON null, on which the code panics when it sets a value.
- ConfigTree.Tree.SetNestedValue: takes the decoded value as a tree of maps of its own, because decoding JSON text is a library call.
- Deletion of accounts and hosts with what belongs to them.
- The agents' own orchestration of VMs, quarantined VMs among it, the placement service's choice of a host, and the `openclaw` command line.
