# Verification of the multi-platform controller

The multi-platform controller gives build TaskRuns a host of the architecture they ask for. A TaskRun names a platform; the
controller assigns it a fixed host, a cloud instance of its own, a shared cloud instance of an auto-scaling pool, or the local
cluster, provisions that host, and takes it back when the TaskRun is finished. This project models that protocol in Dafny
and proves what holds in every run of it, whatever calls fail and whatever other writers do to the TaskRuns meanwhile. Beside it
stand the pieces the protocol rests on: the conflict-resilient update, the configuration and its cache, the instance-tag check
and the names built from a tag, the one-time-password service and the floating addresses of IBM Z.

`dafny verify dfyconfig.toml` checks the whole project.

## How it is laid out

| file | content |
|---|---|
| `Text.dfy`, `Collections.dfy`, `Sorting.dfy` | strings, decimal numbers, sizes, sorted permutations |
| `TaskRuns.dfy`, `Platforms.dfy`, `Cluster.dfy` | TaskRuns with labels, annotations and finalizers; the four strategies; the world and its primitive effects |
| `HostPools.dfy`, `DynamicHosts.dfy`, `DynamicPools.dfy`, `PoolCounting.dfy`, `Reconcile.dfy` | every handler as a function from a world and the results of its calls to the world it leaves |
| `HostSelection.dfy`, `Controller.dfy` | the loops and the handlers as the program runs them, on objects that are edited in place, each proved equal to its function |
| `Safety.dfy`, `Effects.dfy`, `Handlers.dfy`, `Machine.dfy` | the invariant, its preservation by the primitive effects, by the handlers, and over runs |
| `Theorems.dfy`, `Shutdowns.dfy`, `HostFailures.dfy`, `LaunchRetries.dfy`, `PoolLimits.dfy` | what follows for every run |
| `Scenarios.dfy`, `TagLimits.dfy`, `TagConfusion.dfy` | building runs, and the runs that instance tags make possible which are accepted but do not tell instances apart |
| `Outcomes.dfy`, `AllocationOutcomes.dfy`, `HandlerOutcomes.dfy` | what each operation must do: when it succeeds, waits, gives up, launches, cleans up or fails, and what it leaves then |
| `ConflictUpdate.dfy` | the update with retries and its three-way merge |
| `Validation.dfy`, `InstanceTags.dfy`, `Config.dfy`, `ConfigRoundTrip.dfy`, `ConfigCache.dfy` | platform names, tags and instance names, the ConfigMap, what is read back from it, the cache |
| `Otp.dfy`, `FloatingIps.dfy` | the two small resource machines |

Two kinds of results go together. The theorems over runs say what can never happen. The outcome lemmas say what must happen: from a
given world and given results of calls, an operation does its work and not less.

A *run* (`Machine.Run`) starts with an empty world and takes any number of steps in any order: a reconcile of a user, provision or
cleanup task; a user TaskRun is created; somebody edits, completes or removes a TaskRun; a secret appears; an instance dies; a
periodic host update starts; time passes. The results of all calls of a reconcile (API writes, cloud calls, lists, the outcome of a
walk over a Go map) are a record `Calls` that a step takes as an argument, so a theorem about all runs is about every mix of
failures. `World` also keeps what the program does not store but the statements speak of: every instance ever launched, the ids
on which termination was asked for, and per TaskRun how many launches and provisions failed and how many writes of a count, a mark
or an error secret were lost.

Assumptions, each visible in `Machine.Admissible`, `Safety.WellFormed` or the types:

- One reconcile is one atomic step that reads exactly; only its own updates can meet conflicting writes. The real controller runs several workers.
- The ConfigMap does not change during a run (the cache theorem is the exception). Host names are not empty and contain no comma. `ConfigCache.ResolvedIsWellFormed` derives the rest of `WellFormed` from the parser.
- Instances are found as the providers find them, within a region and instance type (AWS) or an endpoint and network or workspace (IBM): on AWS by the instance tag, on IBM by names that start with it (pkg/aws/ec2.go:136-154, pkg/ibm/ibmz.go:157-163, pkg/ibm/ibmp.go:125-131). No tag is excluded. Two groups of theorems name a condition on the tags of the platform they are about, and it is needed: the instance limits hold where the platform finds its own instances (`Safety.Visible`), the theorems on the hosts of a pool where the pools that find its instances give them the same age (`Safety.SameAge`). `Safety.VisibleIff` and `Safety.ApartIff` with `InstanceTags.ConfusableIff` say what that means for the tags.
- Other writers leave the controller's own labels, annotations and finalizer alone; a TaskRun is removed only without finalizers; a name of a user TaskRun is used once. Nobody but the controller deletes the secret of a task. The merge theorem (`ConflictUpdate.RetryStores`) does not need the first of these.
- The cloud provider gives new instance ids that are not names of configured hosts. Provision and cleanup TaskRuns are identified by user task and host address, so a collision of their shortened hash does not happen.
- The host of a pool is addressed by its instance id.

## Where the code does less than one might expect

- An IBM tag with an upper-case letter or an underscore is accepted, but the names built from it do not start with it, so no instance is ever counted (`TagLimits.NoneCounted`). Such a platform has no limit: `TagLimits.DynamicLimitNeedsSight` and `TagLimits.PoolLimitNeedsSight` give, for every number, a run with that many instances, so that `Safety.Visible` is the exact condition of the limits. `TagLimits.UncountedRun` is the case of the accepted tag "Prod-s390x".
- Two accepted tags of which one starts with the other make a pool take the other's instances for its own (`InstanceTags.PrefixTagsConfused`). Where two pools find the same instances and allow them different ages, there is always a run in which one shuts an instance down and the other then gives it a task (`TagConfusion.AgesMustAgree`; `TagConfusion.ConfusedRun` with "prod-s390x" and "prod-s390x-large"), so that `Safety.SameAge` is the exact condition of `Theorems.NoStoppedHostInUse` for a pool that finds its own instances.
- A pool can exceed its limit of unexpired instances. A pass subtracts every expired instance it has listed from the count, also one it has just terminated and the provider has already stopped counting. `PoolLimits.OvershootingRun` is a run in which a pool limited to one instance ends with two; `PoolLimits.OvershootsIff` gives the exact condition for one pass, and `Theorems.PoolWithinLimit` the bound for runs without such a pass.
- Releasing a pool host never asks for the termination of that host itself (`Handlers.PoolDeallocateStops`): the assigned-host label is removed only afterwards, so the idle check still sees the task. The next pass terminates it.
- If the list call for an instance's network interface fails, the instance can get a second floating address: `FloatingIps.BlindExample`, with the exact condition in `FloatingIps.AssignKeeps`.
- The failure count of a launch is not among the annotations that a merged update carries over, so it is lost when the write meets a conflict; the bound on failed launches counts these (`LaunchRetries.LaunchFailuresBounded`).
- If the user task cannot be read when its provision task has failed, the provision task is still marked as processed and the user task keeps the host that was not provisioned (`Outcomes.ProvisionFailedOutcome` with the exact condition, `Outcomes.StrandedExample` with an instance).
- `removeInstanceFromTask` deletes the cloud-platform key from the annotations although it is stored as a label; the model does the same.

The straight-line handlers of `Controller.Reconciler` that have no row below (for one strategy or one step each) are proved equal
to their functions in the same way as those that have.

## Model

| member | source | states |
|---|---|---|
| `Theorems.NoInstanceLost` | pkg/reconciler/taskrun/dynamic.go:48-248 | in every run every launched per-task instance is recorded on its TaskRun under the finalizer, or termination was asked for |
| `Theorems.OneInstancePerTask` | pkg/reconciler/taskrun/dynamic.go:48-248 | a TaskRun never owns two instances for which termination was not asked |
| `Theorems.NoStoppedHostInUse` | pkg/reconciler/taskrun/dynamicpool.go:30-99 | in every run no TaskRun names an instance of a pool that was asked to terminate, and such an instance is expired, if the pools that find it give it the same age |
| `Theorems.ShutDownOnlyUnused` | pkg/reconciler/taskrun/dynamicpool.go:38-52 | under that condition, at the step that asks for the termination of a pool instance it is expired and no TaskRun names it |
| `Theorems.StoppedStaysUnused` | pkg/reconciler/taskrun/hostpool.go:70-132 | under that condition no TaskRun is ever assigned to it from then on |
| `Theorems.ExpiredHostDrains` | pkg/reconciler/taskrun/dynamicpool.go:38-57 | under that condition, once a pool instance is past its age the set of user tasks on it only shrinks |
| `Theorems.HostWithinConcurrency` | pkg/reconciler/taskrun/hostpool.go:45-147 | in every run the user tasks a pool has on a host are at most its concurrency |
| `Theorems.StaticPoolWithinCapacity` | pkg/reconciler/taskrun/taskrun.go:851-855 | in every run the assigned tasks of a static pool are at most the sum of the concurrencies |
| `Theorems.DynamicWithinLimit` | pkg/reconciler/taskrun/dynamic.go:163-192 | in every run the live instances of a per-task platform that finds its own instances are at most its limit |
| `Theorems.PoolWithinLimit` | pkg/reconciler/taskrun/dynamicpool.go:121-146 | unexpired instances of a pool that finds its own are at most the limit, unless a launch came in a pass that forgot more stopped instances than it overlooked expired ones |
| `Theorems.AssignedIsHeld` | pkg/reconciler/taskrun/hostpool.go:106-147 | in every run a user task with a host carries the finalizer and is not waiting, for all strategies and rollbacks |
| `Theorems.SecretIsFinal` | pkg/reconciler/taskrun/taskrun.go:480-495 | once the secret of a task exists, it keeps it, nothing is launched for it and it gets no new host until it is finished |
| `Theorems.FinishedTaskConverges` | pkg/reconciler/taskrun/taskrun.go:557-656 | from any state one error-free reconcile of a finished task leaves no host and no finalizer, whatever became of the deallocation; another changes nothing |
| `Handlers.EditKeeps` | pkg/reconciler/taskrun/taskrun.go:1104-1119 | writes of others, completions and deletion requests keep the invariant |
| `Shutdowns.StepStops` | pkg/reconciler/taskrun/dynamicpool.go:62-99 | whatever a step asks to terminate is no pool instance, or an expired one that no TaskRun names |
| `Shutdowns.ReconcileUserStops` | pkg/reconciler/taskrun/taskrun.go:435-478 | a reconcile terminates only the task's own instance, the one just launched, and the idle expired instances of its pool |
| `Handlers.PoolDeallocateStops` | pkg/reconciler/taskrun/dynamicpool.go:62-90 | releasing a pool host asks for the termination of idle expired instances, and never of the host being released |
| `HostFailures.ProvisionFailuresBounded` | pkg/reconciler/taskrun/taskrun.go:287-315 | a static pool with n hosts gives a task at most n provision failures plus one for each lost mark; without lost marks the hosts left and the failures add up to n |
| `HostFailures.FailedHostNotReused` | pkg/reconciler/taskrun/hostpool.go:42-90 | a host that failed for a task of a static pool is never assigned to it again |
| `HostFailures.RunNamesGrow` | pkg/reconciler/taskrun/taskrun.go:298-311 | over a run a name never leaves the list of failed hosts of a static task |
| `HostFailures.ExhaustedPool` | pkg/reconciler/taskrun/hostpool.go:92-105 | allocation ends with "all hosts failed", changing nothing, exactly when every host of the pool has failed; without lost marks that is after as many failures as hosts |
| `Handlers.LedgerAfter` | pkg/reconciler/taskrun/taskrun.go:287-315 | a recorded failure keeps the account of failures, failed hosts, lost marks and provision tasks that will be processed again |
| `Handlers.AppendFailure` | pkg/reconciler/taskrun/taskrun.go:298-309 | adding a host to the comma-joined list and reading it back appends exactly that name |
| `LaunchRetries.LaunchFailuresBounded` | pkg/reconciler/taskrun/dynamic.go:192-220 | in its life a task has at most three failed launches plus one for each lost count and each error secret that could not be created |
| `LaunchRetries.ReconcileUserCounts` | pkg/reconciler/taskrun/taskrun.go:463-478 | a reconcile leaves every counter alone or balances one more failed launch against the counter, the losses and the error secret |
| `PoolLimits.PoolAllocateWithinTotal` | pkg/reconciler/taskrun/dynamicpool.go:101-152 | a pool launch leaves at most the limit plus the expired instances seen in the pass |
| `PoolLimits.OvershootsIff` | pkg/reconciler/taskrun/dynamicpool.go:121-146 | a pass takes the unexpired instances over the limit exactly when the pool is at the limit, more stopped instances are no longer counted than expired ones go unlisted, and the pool finds what it launches |
| `TagLimits.NoneCounted` | pkg/ibm/ibmz.go:157-163 | an IBM platform whose tag is changed in its names counts none of its instances |
| `TagLimits.DynamicLimitNeedsSight` | pkg/reconciler/taskrun/dynamic.go:163-192 | for every per-task platform that does not find its instances and every n there is a run with n live ones |
| `TagLimits.PoolLimitNeedsSight` | pkg/reconciler/taskrun/dynamicpool.go:121-146 | for every pool that does not find its instances and every n there is a run with n unexpired ones, in which no pass undercounts |
| `TagLimits.UncountedRun` | pkg/ibm/ibmp.go:125-131 | the tag "Prod-s390x" passes the configuration check, and with it and a limit of one every number of instances can be reached |
| `TagConfusion.AgesMustAgree` | pkg/reconciler/taskrun/dynamicpool.go:30-60 | wherever a pool that finds its own instances shares some with a pool that gives them another age, there is a run in which a task is on an instance that was asked to terminate |
| `TagConfusion.ConfusedRun` | pkg/ibm/ibmz.go:191-193 | the same for two accepted tags of which one starts with the other |
| `Safety.VisibleIff` | pkg/ibm/ibmz.go:157-163 | a platform finds its own instances exactly if it is on AWS, its tag has no upper-case letter and no underscore, or no name can be built from it |
| `Safety.ApartIff` | pkg/ibm/ibmz.go:191-193 | a platform finds none of another's instances exactly if the providers or what confines their lists differ, the other cannot launch, the AWS tags differ or the IBM tags cannot be confused |
| `PoolLimits.OvershootingRun` | pkg/reconciler/taskrun/dynamicpool.go:121-146 | a run in which a pool limited to one has two unexpired instances |
| `Machine.StepKeeps` | pkg/reconciler/taskrun/taskrun.go:162-219 | every step keeps the invariant and undoes nothing that is final |
| `Machine.RunIsGood` | pkg/reconciler/taskrun/taskrun.go:162-219 | every world of every run satisfies the invariant |
| `Machine.RunFollows` | pkg/reconciler/taskrun/taskrun.go:162-219 | terminations, launches, finished tasks, sealed tasks and expired hosts carry over to every later world |
| `Handlers.ReconcileUserKeeps` | pkg/reconciler/taskrun/taskrun.go:435-478 | a reconcile of a user task keeps the invariant |
| `Handlers.ReconcileProvisionKeeps` | pkg/reconciler/taskrun/taskrun.go:246-385 | a reconcile of a provision task keeps the invariant |
| `Handlers.DynamicAllocateKeeps` | pkg/reconciler/taskrun/dynamic.go:48-242 | allocation with an instance per task keeps the invariant on all its failure paths |
| `Handlers.PoolAllocateKeeps` | pkg/reconciler/taskrun/dynamicpool.go:101-153 | allocation from an auto-scaling pool keeps the invariant |
| `Handlers.HostPoolAllocateKeeps` | pkg/reconciler/taskrun/hostpool.go:35-149 | allocation from a host pool keeps the invariant |
| `Handlers.HostAssignedKeeps` | pkg/reconciler/taskrun/taskrun.go:557-656 | giving a host back keeps the invariant |
| `Outcomes.HostPoolOutcome` | pkg/reconciler/taskrun/hostpool.go:35-149 | a pool allocation without an error leaves the task stored as waiting, when no usable host has a slot, or on the usable host with the most free slots, under the finalizer, with a provision task or an error secret |
| `Outcomes.AssignHostOutcome` | pkg/reconciler/taskrun/hostpool.go:124-148 | where provisioning cannot start, the rollback leaves the task without the host and the finalizer; where the assignment cannot be stored, nothing changes |
| `Outcomes.LaunchOutcome` | pkg/reconciler/taskrun/dynamic.go:184-241 | a launched instance is recorded with its launch time under the finalizer, or terminated with the TaskRun unchanged |
| `Outcomes.TimeoutFromLaunch` | pkg/reconciler/taskrun/dynamic.go:57-78 | the recorded launch time is read back: the instance is given up exactly when the timeout has passed since then |
| `Outcomes.AbandonOutcome` | pkg/reconciler/taskrun/dynamic.go:92-101 | giving up asks for termination and takes the host away; the instance is forgotten only if the provider accepted |
| `Outcomes.ProvisionSucceededOutcome` | pkg/reconciler/taskrun/taskrun.go:316-342 | a successful provision task is marked as processed only when the user task has a secret or is gone |
| `Outcomes.ProvisionFailedOutcome` | pkg/reconciler/taskrun/taskrun.go:287-315 | where a failed provision task is marked, the host was withdrawn and listed as failed exactly if the user task could be read; if not, the mark is stored all the same and the user task is unchanged |
| `Outcomes.StrandedExample` | pkg/reconciler/taskrun/taskrun.go:294-297 | after one failed read a task stays on a host that nobody provisions |
| `Outcomes.FailedProvisionRecorded` | pkg/reconciler/taskrun/taskrun.go:246-315 | a failed provision task: a user task that can be read and written loses the host, which goes on its list, and the provision task is marked; one that cannot be written leaves everything for another try |
| `Outcomes.SucceededProvisionConcluded` | pkg/reconciler/taskrun/taskrun.go:316-385 | a successful one: the user task has a secret or gets an error secret under the finalizer, and the provision task is marked; what cannot be read is left for another try |
| `Outcomes.FinishedTasksGo` | pkg/reconciler/taskrun/taskrun.go:221-273 | a processed provision task and a finished cleanup task are deleted at once if they succeeded, else after their hour, and nothing else changes |
| `AllocationOutcomes.GivesUpIff` | pkg/reconciler/taskrun/dynamic.go:57-160 | a recorded instance is terminated exactly if it timed out, its address cannot be had, it failed, or provisioning cannot start; it then leaves the task, and otherwise the task gets it as its host or is left as it is |
| `AllocationOutcomes.TimeoutEnforced` | pkg/reconciler/taskrun/dynamic.go:57-78 | an instance without an address is given up with an error once the timeout has passed since its recorded launch, and not before |
| `AllocationOutcomes.NoInstanceOutcome` | pkg/reconciler/taskrun/dynamic.go:162-241 | without an instance: one is launched and recorded below the limit, the task waits at the limit, nothing is launched if the count fails |
| `AllocationOutcomes.LaunchFailedOutcome` | pkg/reconciler/taskrun/dynamic.go:194-219 | the first two failed launches are counted and tried again, the third is an error |
| `AllocationOutcomes.FailedInstanceEnds` | pkg/reconciler/taskrun/dynamic.go:50-52 | a task whose instance could not be provisioned ends in an error |
| `AllocationOutcomes.PoolGrowsIff` | pkg/reconciler/taskrun/dynamicpool.go:101-152 | a pool without a host left for the task launches one exactly below its limit; at its limit the task waits on or ends with the error for failed hosts |
| `AllocationOutcomes.PoolAssignsFree` | pkg/reconciler/taskrun/dynamicpool.go:109-120 | a pool with a free slot assigns a host with the most free slots and launches nothing |
| `AllocationOutcomes.PoolErrors` | pkg/reconciler/taskrun/dynamicpool.go:103-146 | a list, a count, a name or a launch that fails is an error, and nothing is launched |
| `AllocationOutcomes.RetiredAreStopped` | pkg/reconciler/taskrun/dynamicpool.go:38-52 | every listed, expired and idle instance is asked to terminate by every pass |
| `AllocationOutcomes.HostPoolSucceeds` | pkg/reconciler/taskrun/hostpool.go:35-149 | with a usable host and calls that succeed the task is assigned one with the most free slots, or waits if all are full |
| `AllocationOutcomes.HostPoolErrors` | pkg/reconciler/taskrun/hostpool.go:38-50 | no hosts, no list, no host of the platform or a refused write is an error and changes nothing |
| `AllocationOutcomes.ProvisioningIff` | pkg/reconciler/taskrun/taskrun.go:975-1057 | provisioning of a held task fails exactly if there are no credentials and no error secret can be made, or the create call fails; else there is a provision task for its host, or an error secret |
| `AllocationOutcomes.LocalOutcome` | pkg/reconciler/taskrun/local.go:18-33 | the local strategy puts the task on "localhost" under the finalizer and makes its secret |
| `HandlerOutcomes.FailureEndsInSecret` | pkg/reconciler/taskrun/taskrun.go:448-478 | every error but a conflict, a platform that is not valid and a configuration that cannot be read end in an error secret |
| `HandlerOutcomes.ReconcileAllocates` | pkg/reconciler/taskrun/taskrun.go:463-508 | a task that needs a host gets the allocation of its platform's strategy |
| `HandlerOutcomes.StaticTaskOutcome` | pkg/reconciler/taskrun/taskrun.go:435-478 | a task of a static pool gets an error secret once all hosts failed, waits while the usable ones are full, and otherwise gets one with the most free slots |
| `HandlerOutcomes.TimedOutTaskOutcome` | pkg/reconciler/taskrun/taskrun.go:435-478 | a task whose instance got no address in time ends in an error secret, with the instance terminated |
| `HandlerOutcomes.PoolTaskGrows` | pkg/reconciler/taskrun/taskrun.go:435-478 | a reconcile of a task without a host left in its pool launches one below the limit |
| `HandlerOutcomes.NothingToDo` | pkg/reconciler/taskrun/taskrun.go:435-447 | unfinished tasks with a host or a secret, and finished ones that hold nothing, are left alone |
| `HandlerOutcomes.FinishedTaskOutcome` | pkg/reconciler/taskrun/taskrun.go:557-656 | a finished task has its host cleaned or its instance terminated, loses host, finalizer and secret, and an oldest waiting task of its platform is marked |
| `HandlerOutcomes.FinishedTaskErrors` | pkg/reconciler/taskrun/taskrun.go:577-612 | without its configuration, or if it cannot be written, it keeps everything, and that is an error |
| `HandlerOutcomes.CleanupCreated` | pkg/reconciler/taskrun/hostpool.go:151-208 | giving back a host without an error means that a cleanup task for the user task and platform is there, and there is no error if it can be created |
| `HandlerOutcomes.PoolCleanupCreated` | pkg/reconciler/taskrun/dynamicpool.go:62-70 | the same for a host of an auto-scaling pool |
| `Outcomes.ReleaseWakes` | pkg/reconciler/taskrun/taskrun.go:625-655 | at the end of giving a host back an oldest waiting task is marked, if any waits |
| `HostSelection.SelectHost` | pkg/reconciler/taskrun/hostpool.go:62-105 | in whatever order the hosts are walked, the chosen one has the most free slots among matching hosts that have not failed; none is chosen exactly when none has a slot; the flags tell "no matching host" and "all failed" |
| `HostSelection.CountAssigned` | pkg/reconciler/taskrun/hostpool.go:45-57 | the counting loop gives for every host the number of user tasks labelled with it |
| `HostSelection.OldestTask` | pkg/reconciler/taskrun/taskrun.go:682-693 | the loop finds a waiting task of the platform that no other is older than, and none exactly when none waits |
| `HostSelection.PlatformCapacity` | pkg/reconciler/taskrun/taskrun.go:851-855 | the loop adds up the concurrencies, in any order |
| `HostSelection.CapacityWithout` | pkg/reconciler/taskrun/taskrun.go:851-855 | the sum does not depend on which host comes first |
| `Controller.Reconciler.HandleUserTask` | pkg/reconciler/taskrun/taskrun.go:435-478 | the handler leaves the world, TaskRun and error of its function, for the hosts and waiting tasks its walks settled on |
| `Controller.Reconciler.HandleHostAllocation` | pkg/reconciler/taskrun/taskrun.go:480-555 | the handler leaves what its function gives: nothing where the secret exists, an error secret where the configuration cannot be read, else the allocation of the platform's strategy |
| `Controller.Reconciler.HandleHostAssigned` | pkg/reconciler/taskrun/taskrun.go:557-656 | the handler leaves what its function gives, with the cleanup going on after a failed deallocation |
| `Controller.Reconciler.HandleWaitingTasks` | pkg/reconciler/taskrun/taskrun.go:662-709 | the handler leaves the world of its function, which marks a waiting task of the platform whenever there is one |
| `Outcomes.WakeOutcome` | pkg/reconciler/taskrun/taskrun.go:662-709 | if any task waits for the platform and the calls succeed, exactly one is marked, and no other is older; if none waits, nothing changes |
| `Controller.Reconciler.AllocateFromPool` | pkg/reconciler/taskrun/hostpool.go:35-149 | the method leaves what its function gives for the host its walk chose |
| `Controller.Reconciler.BuildHostPool` | pkg/reconciler/taskrun/dynamicpool.go:30-60 | the loop splits the listed instances into hosts and expired ones, counts these and terminates exactly the idle ones |
| `Controller.Reconciler.AllocateFromDynamicPool` | pkg/reconciler/taskrun/dynamicpool.go:101-153 | the method leaves what its function gives |
| `Controller.Draft.LetGo` | pkg/reconciler/taskrun/taskrun.go:605 | every occurrence of the finalizer goes, the others stay in order |
| `ConflictUpdate.RetryStores` | pkg/reconciler/taskrun/taskrun.go:1088-1136 | for any conflicting writes, the first undisturbed try stores every managed key and the finalizer from the controller and everything else from the last of all writes before it; a failing try leaves the last write so far, and if every try is disturbed that is a conflict |
| `ConflictUpdate.MergeIsMergeOf` | pkg/reconciler/taskrun/taskrun.go:1121-1172 | the merge takes presence and value of managed keys from the controller, all other keys and finalizers from the latest version |
| `ConflictUpdate.MergeIdempotent` | pkg/reconciler/taskrun/taskrun.go:1121-1136 | merging again changes nothing |
| `ConflictUpdate.MergeKeys` | pkg/reconciler/taskrun/taskrun.go:1155-1172 | the loop gives the merge of the set of its keys, whatever their order and repetitions |
| `ConflictUpdate.MergeTaskRun` | pkg/reconciler/taskrun/taskrun.go:1138-1153 | the three merges together are the merge |
| `ConflictUpdate.Server.UpdateTaskRunWithRetry` | pkg/reconciler/taskrun/taskrun.go:1088-1102 | with resource versions, one plain update and up to five merged ones give the result that the lemmas are about |
| `ConflictUpdate.Server.UpdateTaskRun` | pkg/reconciler/taskrun/taskrun.go:1121-1136 | one try stores the merge with the version it read, or conflicts exactly if somebody wrote in between |
| `ConflictUpdate.RetryRefinesWrite` | pkg/reconciler/taskrun/taskrun.go:1088-1136 | if others leave the controller's keys alone, a retried update is one of the four outcomes of a write in the run model, with the last other write as the edit |
| `ConflictUpdate.EditedIffEdit` | pkg/reconciler/taskrun/taskrun.go:1104-1119 | the versions such writers can leave are exactly the results of one edit |
| `ConfigCache.CacheAgrees` | pkg/reconciler/taskrun/taskrun.go:729-865 | after any edits, lookups and launches each answer agrees with a fresh resolution of the current data, and each entry with the version of the data it was read from, up to the tag that launching writes |
| `ConfigCache.Cache.GetPlatformConfig` | pkg/reconciler/taskrun/taskrun.go:729-865 | the lookup: a changed version empties the cache, a hit is returned, local is never kept, a static pool is kept even if its metrics cannot be registered |
| `ConfigCache.TaggedAgrees` | pkg/aws/ec2.go:85-93 | launching changes an entry only in the task-run tag |
| `ConfigCache.LookupRemembers` | pkg/reconciler/taskrun/taskrun.go:736-746 | what a lookup answers it remembers, unless it is local, and answers again for the same version without reading anything; a static pool is remembered even where its metrics could not be registered |
| `ConfigCache.ResolvedIsWellFormed` | pkg/reconciler/taskrun/taskrun.go:825-849 | a ConfigMap with proper host names resolves to settings the run theorems apply to, whatever the tags |
| `Config.ResolvedIsOk` | pkg/config/config.go:197-410 | every resolved entry is for its platform and has limits, ages and concurrencies in their ranges |
| `Config.ParsePlatformList` | pkg/config/config.go:43-67 | the loop gives the trimmed platforms in order, or fails exactly if one is malformed or an empty one is not last |
| `Config.ListedAreValid` | pkg/config/config.go:43-67 | every listed platform has the platform format |
| `ConfigRoundTrip.PlatformListRoundTrip` | pkg/config/config.go:43-67 | a list of valid platforms, with or without a comma at its end, is read as these platforms in order |
| `ConfigRoundTrip.NamedIff` | pkg/config/config.go:43-67 | a list names exactly its non-empty trimmed parts |
| `ConfigRoundTrip.DynamicRoundTrip` | pkg/config/config.go:197-264 | the settings of a per-task platform, written into their fields or left out at their defaults, are read back |
| `ConfigRoundTrip.PoolRoundTrip` | pkg/config/config.go:283-343 | the settings of an auto-scaling pool, its age in minutes, are read back |
| `ConfigRoundTrip.HostRoundTrip` | pkg/config/config.go:361-410 | a static host, written into its fields, is read back; without a concurrency it takes no tasks |
| `ConfigRoundTrip.CloudRequired` | pkg/config/config.go:82-190 | a cloud platform is only accepted with a secret that fits its provider, a tag in order and numbers in their ranges |
| `ConfigRoundTrip.HostNamesIff` | pkg/reconciler/taskrun/taskrun.go:812-823 | a host is known exactly if one of its fields is there |
| `ConfigRoundTrip.StaticHostsExactly` | pkg/reconciler/taskrun/taskrun.go:825-849 | the pool of a platform has exactly the hosts that name it, as they are written |
| `ConfigRoundTrip.TagOfConfigMap` | pkg/reconciler/taskrun/taskrun.go:748-762 | the last text that gives a tag decides its value |
| `ConfigRoundTrip.StrategyOf` | pkg/reconciler/taskrun/taskrun.go:764-823 | the first list that names a platform decides its strategy |
| `ConfigRoundTrip.LabelShape` | pkg/reconciler/taskrun/taskrun.go:1070-1072 | the label of a valid platform has no slash and keeps all else; two platforms can have the same label |
| `Validation.FormatIff` | pkg/config/validation.go:47-67 | besides the exceptions a platform is two RFC 1035 labels around one slash |
| `Config.ParseStaticPlatform` | pkg/reconciler/taskrun/taskrun.go:825-849 | in whatever order the hosts are walked, the pool has exactly the matching hosts, and there is an error exactly if some host is malformed |
| `Config.CollectHostNames` | pkg/reconciler/taskrun/taskrun.go:812-823 | the loop over the ConfigMap finds exactly the host names |
| `Config.ParseAdditionalTags` | pkg/reconciler/taskrun/taskrun.go:748-762 | the later of two values of one tag counts, malformed ones are skipped |
| `InstanceTags.ValidTagIff` | pkg/config/validation.go:217-330 | for all inputs the tag is accepted exactly if the platforms are equal, the instance types have the same parts in any order, and the tag is short enough |
| `InstanceTags.ConventionIff` | pkg/config/validation.go:196-213 | for "OS-Type-Platform" and "Prefix-Platform-Type" that is equality of the types as multisets |
| `InstanceTags.KeyParts` | pkg/config/validation.go:263-292 | what the key parser makes of the dash-separated parts |
| `InstanceTags.ValueParts` | pkg/config/validation.go:303-330 | what the tag parser makes of the dash-separated parts |
| `InstanceTags.NameShape` | pkg/ibm/ibmz_helpers.go:51-72 | a name is built exactly for tags that match the pattern, of lower-case letters, digits and hyphens, 18 characters longer than the tag |
| `InstanceTags.ValidTagNameLength` | pkg/config/validation.go:238-248 | accepted tags give names of at most 47 (ppc64le) or 63 (s390x) characters |
| `InstanceTags.NameStartsWithTag` | pkg/ibm/ibmz.go:157-163 | counting by prefix sees a new instance exactly if its tag has no upper-case letter and no underscore |
| `InstanceTags.ConfusableIff` | pkg/ibm/ibmz.go:191-193 | listing by a tag sees instances of another exactly if the other starts with it or it is the beginning of a name of the other |
| `InstanceTags.PrefixTagsConfused` | pkg/config/validation.go:217-251 | two accepted tags of which one sees every instance of the other |
| `Sorting.SortIffPermutation` | pkg/config/validation.go:285-289 | lists sort to the same list exactly when they are permutations of each other |
| `Text.SplitJoin` | pkg/reconciler/taskrun/taskrun.go:303-309 | splitting undoes joining for separator-free parts |
| `Otp.NoStoreServedTwice` | cmd/otp/otp.go:21-86 | in every trace different successful fetches are answered from different stores |
| `Otp.FetchReturnsStored` | cmd/otp/otp.go:61-86 | a successful fetch returns the body of an earlier successful store of the same token |
| `Otp.KeptUntilFetched` | cmd/otp/otp.go:21-46 | a store stays available until its token is asked for or drawn again |
| `Otp.RequestsSucceed` | cmd/otp/otp.go:21-86 | a store or fetch fails only if the body cannot be read, no token can be drawn, the token is not known or the response cannot be written |
| `Otp.StoreThenFetch` | cmd/otp/otp.go:21-86 | what was stored is served to the first request that asks for it |
| `Otp.FetchedOnce` | cmd/otp/otp.go:61-86 | after a fetch the token is unknown until it is stored again |
| `Otp.Service.StoreKey` | cmd/otp/otp.go:21-46 | the store handler |
| `Otp.Service.FetchKey` | cmd/otp/otp.go:61-86 | the fetch handler |
| `Otp.GenerateRandomString` | cmd/otp/otp.go:92-104 | the token has the asked length and consists of the drawn letters, or the generator failed |
| `FloatingIps.RunIsSane` | pkg/ibm/ibmz_helpers.go:285-330 | in every run in which the interface lists can be read, an address is on one instance and an instance has one address |
| `FloatingIps.TotalBounded` | pkg/ibm/ibmz_helpers.go:285-330 | the addresses never outnumber the larger of their initial number and the peak number of instances, even if attaching a new one fails |
| `FloatingIps.RoomForOneMore` | pkg/ibm/ibmz_helpers.go:321-330 | where a new address is allocated there are fewer addresses than instances |
| `FloatingIps.AssignKeeps` | pkg/ibm/ibmz_helpers.go:285-330 | a call keeps one instance per address, and one address per instance exactly unless a failed list call hid the address the instance has |
| `FloatingIps.AssignAnswers` | pkg/ibm/ibmz_helpers.go:285-330 | an address the instance has is found and nothing changes; a running instance without one gets the first available, or a new one if there is none, exactly if the calls succeed; others wait or are a problem |
| `FloatingIps.BlindExample` | pkg/ibm/ibmz_helpers.go:202-219 | an instance with two addresses after that list call failed |
| `FloatingIps.Vpc.AssignIpToInstance` | pkg/ibm/ibmz_helpers.go:285-330 | the method leaves the region and answer of its function |
| `FloatingIps.Vpc.AssignFloatingIp` | pkg/ibm/ibmz_helpers.go:223-249 | the loop attaches the first available address |
| `FloatingIps.Vpc.AssignNewlyAllocatedIp` | pkg/ibm/ibmz_helpers.go:253-281 | a created address stays even if it cannot be attached |

## Left out

- AWS and IBM SDK calls, HTTP, SSH pings, credentials: their results are arguments.
- The retrying API clients of `pkg/util`, metrics, events, logs, tickers, leader election, start-up: no effect on allocation.
- Several workers: reconciles are atomic. Interleavings of two reconciles between a read and a write are not covered.
- After an update went through in merged form, a second update of the same reconcile is allowed to succeed directly in the model; in the program it meets a conflict first. The model covers more outcomes.
- Liveness of waiting tasks: the code guarantees none; only which task is woken is stated.
- TaskRun specifications (workspaces, parameters other than the platform, compute resources), pods that are annotated after provisioning, secret contents.
- The early checks of `handleTaskRunReceived` on parameters and volumes: a user task of the model has passed them.
- MD5 and random numbers: arbitrary strings of the right shape. Uniqueness of generated names is not claimed.
- `net.ParseIP` is a parameter of the configuration parser; trimming covers the ASCII white space; lengths count characters, which for ASCII tags are bytes.
- The private-address branch of `assignIPToInstance`, which changes nothing; instances have a primary network interface, and an address stands for its id.
- Credentials and resource groups, which also confine what a provider lists, are not told apart.
- UpdateHostPools: only that update TaskRuns for configured hosts appear.
- Theorems.PoolWithinLimit: not for pools that launched in a pass which forgot more stopped instances than it overlooked expired ones, where the limit does not hold.
- Theorems.StaticPoolWithinCapacity: for concurrencies that are not negative, which the parser ensures.
