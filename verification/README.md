# A verified model of the Vexa-VM control plane

Vexa-VM manages virtual machines on one host: a database of VMs, jobs, addresses and policies, a worker that
carries out queued jobs on the hypervisor, and an HTTP API. This project models the parts whose correctness
rests on an order of steps or on arithmetic, and proves what they promise.

- **Jobs and channel keys** (`Records`, `ControlPlane`, `Database`, `Deployment`, `RotationSafety`,
  `RotationLaws`, `RotationTests`, `RotationRequests`, `RotationHazards`, `RotationPhases`, `RotationProgress`,
  `JobHistory`). A reinstall stages a new guest-tools channel key under a new generation, arms it just before media with that key are published, and promotes it after the guest has proved
  that it holds the key. Jobs are queued, claimed, retried, failed, cancelled and recovered after a process death,
  and each of these may have to clean up the staged key or must not touch it. `ControlPlane` gives every
  transaction as a function on the tables; the class in `Database` carries it out statement by statement and is
  proved equal to that function; `JobEffects` and `ToolsEffects` say what each function does to every column; `Deployment` adds the worker, the guest disks and crashes, and the theorems range
  over all runs of its 27 kinds of steps.
- **Address inventory** (`Cidr`, `PoolPlan`, `AddressInventory`, `PoolCreation`, `AddressEffects`, `InventoryStore`). CIDR blocks in the notation of
  section 3.1 of RFC 4632 and section 2.3 of RFC 4291, the plan of a new pool's addresses, what its creation leaves
  behind, and the ownership of addresses over all runs of pool, address and VM operations.
- **Rate limiter** (`RateLimiter`), **metric history** (`Metrics`), **disk swap of a reinstall** (`DiskSwap`),
  **XML text** (`XmlText`, entities of section 4.6 of XML 1.0), **one-time links** (`LinkTokens`, `LinkEffects`),
  **network-security revisions** (`PolicyRevisions`, `PolicyEffects`), **traffic quotas** (`Traffic`).

State that the program updates in place is a class here, and every method is proved against a function of the old
state or against an outright property; what the program promises is then proved about those functions, mostly over
whole runs. `Basics` holds the result types and 64-bit times.

## Model

| member | source | states |
|---|---|---|
| RotationSafety.DiskKeyAlwaysUsable | src/db.rs:1326-1484 | In every state reachable from an empty installation by a run none of whose steps breaks, with process deaths between any two steps, the key on a guest disk is the active key or the pending key of the armed generation. The steps that break are: building a seed with a staged, unarmed key for a job that names no generation; retiring the tools after the job built a seed with a key; overwriting, deleting or staging as new a record whose key is in use |
| RotationSafety.RunIsSafe | src/db.rs:1068-1128 | Every run without a breaking step keeps the full invariant: also the key of a disk set aside in a swap and the key about to be written stay usable, envelopes open only in their own context, generations are never reused |
| RotationSafety.StepIsSafeExactly | src/services/background.rs:1364-1393 | For all consistent worlds and all steps, requests interleaving freely with each other and the worker: the step keeps the invariant if and only if it is none of the breaking ones |
| RotationSafety.RunIsSafeExactly | src/services/background.rs:893-1232 | Every state along a run is consistent if and only if no step of the run breaks |
| RotationSafety.StageIsSafeExactly | src/routes/api.rs:4580-4608 | Staging is safe if and only if it does not take a record whose key is in use for a new one |
| RotationSafety.RecoverKeepsKeys | src/db.rs:3892-4055 | Recovery after a process death loses no key that a disk may carry |
| RotationSafety.CancelKeepsKeys | src/db.rs:4123-4186 | Cancelling a job, with its rollback of a provisional VM or of a staged generation, loses no key that a disk may carry |
| RotationTests.TestIsExact | src/db.rs:943-1029 | What the tables alone can tell: reconfiguring or deleting a record is safe in every consistent world with these tables if and only if there is no record, a generation is armed (the request is refused), or a reinstall job names the unarmed generation as a new configuration; staging as new, if and only if it stages nothing |
| RotationTests.ConfigureTestIsExact | src/db.rs:943-994 | Reconfiguring leaves the key of the guest disk usable in every consistent world with these tables if and only if that test passes or the new secret is the active one |
| RotationTests.DeleteConfigurationTestIsExact | src/db.rs:1004-1029 | Deleting a configuration does so if and only if that test passes |
| RotationRequests.UndisturbedRequestIsCareful | src/routes/api.rs:4550-4642 | The transactions of a request that nobody interrupts never break, whether it reuses a generation, stages, is refused or is rolled back (discard and delete); together they do to the tables what the request as a whole does, and a request that gets a generation leaves it pending |
| RotationRequests.ContiguousRequestsAreSafe | src/routes/api.rs:1258-1327 | Along every run from an empty installation made of whole requests, kept or rolled back, and of other steps that pass the tables' or the worker's own test, the key on every guest disk stays usable |
| RotationRequests.UnqueuedRequestLeavesNothing | src/routes/api.rs:1321-1327 | A request that is refused, or whose job is, leaves the tables as they were |
| RotationRequests.RequestSucceedsExactly | src/routes/api.rs:4557-4627 | A request gets a generation if and only if it is well-formed and repeats a failed attempt with the same installation or, failing such an attempt, nothing is pending |
| RotationLaws.ArmedUntilEnded | src/db.rs:1326-1358 | Along any run an armed generation and its secret stay exactly as they are until a handshake promotes it (a refused one does not count), its tools are retired or its VM is deleted |
| RotationLaws.ArmedRequestsDecided | src/routes/api.rs:4562-4608 | Until then a reinstall request with tools gets that very generation if it repeats a failed attempt with the same installation, and is refused otherwise, with no change of the tables |
| RotationLaws.ToolsOperationsKeepArmed | src/db.rs:943-1029 | Arming, discarding, reconfiguring, deleting and staging never disturb an armed generation, for any arguments |
| RotationLaws.RecoverySettles | src/db.rs:3892-4055 | After recovery no job is running, each surviving unarmed generation is named by a queued reinstall of the same VM, and no armed generation was removed |
| RotationLaws.SurvivingStageIsQueued | src/db.rs:3926-3961 | The same for one row and any database, given only that the generation fits the column |
| RotationLaws.ClientKeySwitchesOnlyOnArming | src/db.rs:1184-1253 | Over all steps: only arming switches clients of an existing record to another key, and it switches them to the staged one; records appear only by configuring |
| RotationLaws.ConfigureKeepsKeyExactly | src/db.rs:943-994 | Reconfiguring keeps the key of a guest disk usable if and only if the disk has none, a generation is armed, or the new secret is that key (`RotationTests` gives the test on the tables) |
| RotationLaws.DeleteConfigurationKeepsKeyExactly | src/db.rs:1004-1029 | Deleting a configuration keeps the key of a guest disk usable if and only if the disk has none or a generation is armed (`RotationTests` gives the test on the tables) |
| RotationLaws.RetireKeepsKeyExactly | src/services/background.rs:1221-1228 | After the worker's retirement step every key on a disk is usable if and only if the worker had built no seed with a key |
| RotationLaws.PublishingKeepsKeyExactly | src/services/background.rs:1364-1393 | After a worker whose job names no generation has built a seed and replaced the disk, every key on a disk is usable if and only if no unarmed generation was staged when it built the seed |
| RotationLaws.ArmedPublishingIsSafe | src/db.rs:1326-1329 | A worker whose job names a generation arms it first, and the disk it then provides carries a usable key |
| RotationLaws.BreakingLosesAKey | src/services/background.rs:1221-1228 | The condition is not too strict: from every consistent world a breaking step other than a stage, with at most one further step of the worker, leaves a guest disk whose key is neither active nor armed |
| RotationLaws.RollingBackAsNewLosesAKey | src/routes/api.rs:4629-4642 | The same for a stage that takes a record in use for a new one, however its key is in use: the request's own rollback deletes the record |
| RotationLaws.StagingAsNewLosesAKey | src/db.rs:4522-4569 | For a key already on the guest's disk and a VM without a live reinstall, also a job queued for that stage and cancelled deletes the record |
| RotationHazards.RaceLosesTheKey | src/services/background.rs:909-916 | From an empty installation: create a VM with tools, request a reinstall with tools while the create job waits, let the create job run, cancel the reinstall; the guest then has a key the panel no longer has |
| RotationHazards.CreatePublishesStagedKey | src/services/background.rs:1364-1379 | The same from every world with such a pair of jobs |
| RotationHazards.PlainReinstallLosesTheKey | src/services/background.rs:1221-1228 | From an empty installation: create a VM with tools, then reinstall it from a cloud image without tools; the guest then has a key of which there is no record |
| RotationHazards.PlainReinstallRetiresPublishedKey | src/services/background.rs:1166-1228 | The same from every world with such a job |
| RotationProgress.RotationCompletes | src/db.rs:1359-1442 | From every consistent state, a request that gets a generation and whose job nothing competes with, followed by any schedule that mixes the steps of its job (failed and repeated disk swaps and early or late handshakes among them) with steps of other requests, other VMs, other jobs, and process deaths and recoveries while the worker is not on the job: at its end the key is on the disk, active and used by clients, and nothing is pending; at its proof the guest was recorded as ready in the new version, which stays so while nothing else is reported |
| RotationProgress.ScheduleExists | src/services/background.rs:727-742 | Such a schedule exists whenever the worker can claim the job |
| RotationProgress.OwnStepIsEnabled | src/services/background.rs:893-1232 | Once its job is claimed the reinstall is never stuck, whatever has come between |
| RotationProgress.InterruptedCanBeRepeated | src/db.rs:1276-1324 | Wherever the job fails or its process dies: after a restart the same request gets a generation again, the one the attempt had armed or else a new one, and nothing competes with its job, so the theorem above applies |
| RotationPhases.ForeignStepStaysAt | src/db.rs:3892-4055 | Steps of other requests, VMs and jobs, and recoveries while the worker is not on the job, leave a reinstall in the phase it has reached |
| RotationPhases.OwnStepAdvances | src/services/background.rs:893-1232 | Each step of the job takes it to the next phase, and a failed swap back to the one before |
| RotationProgress.RetryCompletes | src/routes/api.rs:4563-4579 | Repeating a request whose attempt failed with its generation armed changes no table, gets that generation again, and every such schedule completes the same rotation |
| ControlPlane.RecoveredRowCases | src/db.rs:3894-3961 | Recovery removes a tools row only with an abandoned first configuration, and a generation only while unarmed and abandoned or unclaimed |
| ControlPlane.RefusedRequestLeavesNothing | src/routes/api.rs:4580-4620 | A reinstall request that is refused leaves the tables as they were if and only if there was no disabled record that it had configured again; such a record is gone, and nothing else changes |
| ControlPlane.JobByKey | src/db.rs:5198-5204 | A lookup by idempotency key returns a job with that key exactly when there is one |
| ControlPlane.Competitor | src/db.rs:3782-3796 | The duplicate check finds a live job of the same kind, VM and (for a bootstrap) expected generation exactly when there is one |
| JobHistory.StepEvolvesJobs | src/db.rs:3858-4186 | Whatever the step, a job stays untouched, is claimed, requeued, granted a finalizer attempt or ended; kind, key and payload (less the staged credential) never change, and new jobs start queued with budget |
| JobHistory.StatusChangesUseBudget | src/db.rs:3858-3932 | 2*(max_attempts - attempts) plus one if running drops exactly when the status changes, except when recovery grants a delete one finalizer attempt; terminal states are absorbing; queued jobs have attempts left |
| JobHistory.BudgetsStayOk | src/db.rs:3858-3932 | Over every run attempts never exceed max_attempts and every queued job has an attempt left |
| JobHistory.StatusChangesBounded | src/db.rs:4075-4137 | Over every run a job that is not a delete changes status at most as often as its initial budget says |
| JobHistory.LiveJobsStayUnique | src/db.rs:3595-3825 | Over every interleaving there is at most one live reinstall and one live delete per VM, one live bootstrap per VM and expected generation, and one job per idempotency key |
| JobHistory.ReinstallReplay | src/db.rs:3768-3781 | At every later point of a reinstall job's life a request with its key changes nothing, and returns the same job exactly if it is the same request and the VM still exists; otherwise it is refused |
| JobHistory.RunEvolves | src/db.rs:5422-5428 | Over every run a job's payload less the staged credential, its kind and its key stay the same |
| JobHistory.TerminalJobsCarryNoCredential | src/db.rs:4045-4052 | Over every run a terminal job carries no staged password |
| JobHistory.OnlyWritersChangePasswords | src/db.rs:869-941 | No step changes a stored password except an administrator's and the commit of that VM's running reinstall |
| JobHistory.CommitIsDurable | src/db.rs:878-941 | The commit succeeds exactly for a running reinstall that owns a VM, is idempotent, writes nothing else, and no later failure, finish or recovery undoes it |
| Database.Database.RecoverInterruptedJobs | src/db.rs:3892-4055 | The sequence of updates does what recovery means row by row, and the two returned counts are those of the jobs requeued and failed and sum to the number that were running |
| Database.Database.EnqueueReinstall | src/db.rs:3723-3825 | Queues a reinstall, replays, or refuses; equal to its specification on all tables |
| Database.Database.EnqueueDelete | src/db.rs:3656-3721 | Queues a delete, replays, or returns the live one; equal to its specification |
| Database.Database.EnqueueBootstrap | src/db.rs:3595-3654 | Queues a bootstrap or returns the live one of the same expected generation; equal to its specification |
| Database.Database.EnqueueJob | src/db.rs:3549-3593 | Queues a job under an idempotency key, replays or refuses; equal to its specification |
| Database.Database.ClaimNextJob | src/db.rs:3858-3890 | Claims a due job with budget that comes first by due time and creation time, or none exactly when there is none |
| Database.Database.FinishJob | src/db.rs:4075-4090 | Ends a running job and drops its staged credential |
| Database.Database.FailJob | src/db.rs:4092-4121 | Requeues a running job or fails it for good, then rolling back the unarmed generation it staged |
| Database.Database.CancelJob | src/db.rs:4123-4186 | Cancels a queued job and repairs the VM and the tools it was about |
| Database.Database.CleanupUnarmedStage | src/db.rs:4522-4569 | Rolls back exactly the unarmed generation a reinstall staged, with the row if it was created for it |
| Database.Database.CommitReinstallPassword | src/db.rs:878-941 | Writes the staged credential of a running reinstall |
| Database.Database.ConfigureTools | src/db.rs:943-994 | Inserts or overwrites a configuration unless a generation is armed |
| Database.Database.StageRotation | src/db.rs:1068-1128 | Adds an unarmed generation to an enabled row that has none pending |
| Database.Database.MarkInstalled | src/db.rs:1330-1354 | Arms exactly the named generation |
| Database.Database.Promote | src/db.rs:1359-1442 | Makes the armed generation's key the active one, sealed under the active context |
| Database.Database.DiscardRotation | src/db.rs:1447-1484 | Drops exactly the named unarmed generation |
| Database.Database.RetireTools | src/db.rs:1034-1042 | Removes the row with both keys |
| Database.Database.UpdateToolsStatus | src/db.rs:1486-1526 | Records a contact; an armed rotation hides readiness and the reported version |
| Database.Database.ReusableRotation | src/db.rs:1276-1324 | Returns the newest failed reinstall with the same fingerprint whose generation is still armed, or none exactly when there is none; refuses exactly the malformed fingerprints |
| Database.Database.StageReinstall | src/routes/api.rs:4550-4627 | Reuses an armed generation, or configures the tools if needed and stages a new one, rolling back when the channel has no path; equal to its specification |
| Database.Database.CleanupStage | src/routes/api.rs:4629-4642 | Undoes a stage whose job could not be queued; equal to its specification |
| Database.Database.DeleteVm | src/db.rs:1528-1551 | Deletes the VM and its tools row and detaches its jobs |
| Database.CountRecovered | src/db.rs:3910-4054 | Every running job is requeued or failed, never both, so the counts are exact |
| JobEffects.EnqueueJobEffect | src/db.rs:3549-3593 | A request whose key is taken gets that job back if kind, VM and payload are the same, and a conflict otherwise; any other is stored queued, with its own payload and columns, unless its VM does not exist |
| JobEffects.EnqueueDeleteEffect | src/db.rs:3656-3721 | The same for deletes, of which the live one is returned where there is one |
| JobEffects.EnqueueBootstrapEffect | src/db.rs:3595-3654 | A bootstrap is refused for a malformed generation, returns the live one of its generation, or is stored |
| JobEffects.EnqueueReinstallEffect | src/db.rs:3723-3825 | A reinstall is refused when malformed, replayed, refused while one is queued or running, or stored with its credential, its VM then reinstalling |
| JobEffects.ClaimEffect | src/db.rs:3858-3890 | A claim takes the first due job that is queued with an attempt left, counts the attempt and locks it now |
| JobEffects.FinishJobEffect | src/db.rs:4075-4090 | Exactly a running job succeeds: unlocked, dated, without its credential, and nothing else changes |
| JobEffects.FailJobEffect | src/db.rs:4092-4121 | A running job is queued again if and only if a retry is asked for and an attempt is left: due then and not claimed earlier, unlocked, payload and tools untouched; otherwise it has failed now and its stage is rolled back |
| JobEffects.CancelJobEffect | src/db.rs:4123-4186 | A queued job is cancelled; a create takes its undefined VM with it, a reinstall rolls its stage back and leaves the state of its VM unknown |
| JobEffects.DeleteVmEffect | src/db.rs:1528-1551 | The row and the tools of the VM go, and its jobs lose only their VM |
| JobEffects.CommitEffect | src/db.rs:878-941 | A commit clears the password, stores the staged one, or changes nothing |
| JobEffects.RecoveryOfVms | src/db.rs:3962-3972 | After recovery a VM differs only in its state, which becomes error if and only if a create or reinstall of it was running with no attempt left |
| JobEffects.RecoveryOfJobs | src/db.rs:3910-3932 | A running job with an attempt left, or a delete to be finalized, is queued: due now, unlocked, otherwise the same; other running jobs have failed now; the rest stay |
| JobEffects.RecoveryOfTools | src/db.rs:3933-4044 | A record that stays differs only in status and stage; the status becomes error exactly for a dead create, an armed reinstall, or a bootstrap without proof; the stage goes exactly if it is unarmed and abandoned or unclaimed |
| ToolsEffects.ConfigureEffect | src/db.rs:943-994 | A configuration is refused while armed; else the record has the secret sealed for active use, the installation, and nothing else |
| ToolsEffects.StageEffect | src/db.rs:1068-1128 | A stage adds an unarmed generation with its own sealed secret and changes nothing else |
| ToolsEffects.ArmEffect | src/db.rs:1330-1354 | Arming flips the flag of exactly the named generation, and the tools are pending again |
| ToolsEffects.DiscardEffect | src/db.rs:1447-1484 | A discard drops exactly the named generation, and none that is armed |
| ToolsEffects.PromoteEffect | src/db.rs:1359-1442 | A promotion is granted exactly for the armed generation and its version; then the staged secret is active, the installation and the installed version are the staged ones, and the guest is ready and seen now; nothing else changes |
| ToolsEffects.StatusEffect | src/db.rs:1486-1526 | A report stores status, version and contact time, but no readiness and no version while a generation is armed |
| ToolsEffects.ClientSecretEffect | src/db.rs:1184-1253 | Clients use the pending secret of an armed record and the active one of any other |
| ToolsEffects.StageRequestEffect | src/routes/api.rs:4550-4627 | The answer of a request and the record it leaves, by the columns of record and jobs |
| ToolsEffects.CleanupRequestEffect | src/routes/api.rs:4629-4642 | A rollback drops its generation while it is unarmed, with the record if it was configured for it |
| Cidr.OverlapIsIntersection | src/db.rs:5373-5376 | The overlap test holds exactly when the two networks share an address |
| Cidr.SharedAddressNests | src/db.rs:5373-5376 | Prefix blocks that share an address are nested |
| Cidr.BoundsAreTheBlock | src/routes/api.rs:5060-5078 | The bounds computed by masks are the first and last address of the block, from ::/0 to the all-ones address |
| Cidr.BlockInRange | src/routes/api.rs:5060-5078 | No block reaches past its family's number range |
| Cidr.HostMask | src/routes/api.rs:5060-5078 | The mask, with its special case for 128 host bits, is two to the host bits less one |
| PoolPlan.InsertNumberedRange | src/routes/api.rs:5018-5034 | Adds exactly the addresses of a range of at most 4096, and fails exactly for larger ones |
| PoolPlan.ExpandReservedSpec | src/routes/api.rs:4984-5016 | Adds exactly the addresses an item covers, and fails exactly for unacceptable items |
| PoolPlan.PlannedPoolAddresses | src/routes/api.rs:4927-4982 | A pool of at most 4096 addresses is listed completely, once and in order, reserved exactly at the gateway, the requested addresses and the unusable IPv4 edges; a larger one lists exactly the requested addresses; it fails exactly for malformed or outside requests |
| PoolPlan.EnumerationAt | src/routes/api.rs:4964-4981 | An ascending list of exactly an interval is its enumeration |
| PoolPlan.Capacity | src/routes/api.rs:4957-4959 | The saturating size of a block decides sparseness correctly |
| AddressInventory.RunsKeepInvariant | src/db.rs:1555-1716 | Over every run the pools are pairwise disjoint, every address with a pool lies in it, has its family and is never broader, is used exactly when it has a VM, and no VM has two primary addresses of one family |
| AddressInventory.StepKeepsInvariant | src/db.rs:1749-1876 | The same for one step from any consistent state |
| AddressInventory.OwnershipPassesThroughUnassigned | src/db.rs:1943-2017 | Between two owners an address was unassigned |
| AddressInventory.MainStaysMain | src/db.rs:2019-2046 | Over every run a main address stays main if and only if no late write of another status meets it |
| AddressInventory.LateWriteDemotes | src/db.rs:2026-2041 | Such a write can come although its check passed: an address detected as a host address between the check and the write is main no more |
| AddressInventory.DeletionConservesInventory | src/db.rs:1528-1551 | Deleting a VM frees exactly its addresses and loses none |
| AddressInventory.PoolRefusedIfShared | src/db.rs:1576-1589 | A pool is refused exactly when it shares an address with a stored one |
| InventoryStore.InventoryStore.CreatePool | src/db.rs:1555-1612 | Stores a pool unless its gateway lies outside or it overlaps a stored one |
| InventoryStore.InventoryStore.PatchPool | src/db.rs:1630-1678 | Changes scope, gateway, MTU and switch of a pool, never its network |
| InventoryStore.InventoryStore.DeletePool | src/db.rs:1680-1695 | Deletes a pool without addresses |
| InventoryStore.InventoryStore.DeletePoolWithUnassigned | src/db.rs:1699-1716 | Deletes a pool and its addresses unless one is in use or a host address |
| InventoryStore.InventoryStore.UpsertAddress | src/db.rs:1749-1876 | Inserts or refreshes an unassigned address within its pool |
| InventoryStore.InventoryStore.AssignAddress | src/db.rs:1943-1995 | Assigns a free address, demoting the VM's other addresses of the family if it is to be primary |
| InventoryStore.InventoryStore.ReleaseAddress | src/db.rs:1997-2017 | Frees a used address |
| InventoryStore.InventoryStore.SetStatus | src/db.rs:2019-2046 | Sets a status other than used, never away from main, when nothing comes between its two transactions |
| InventoryStore.InventoryStore.CheckStatus | src/db.rs:2019-2031 | The first of them refuses the status used and any other for a main address |
| InventoryStore.InventoryStore.WriteStatus | src/db.rs:2032-2042 | The second writes the status and drops the owner, whatever the address has become |
| InventoryStore.InventoryStore.DeleteAddress | src/db.rs:1929-1941 | Deletes an address that is neither assigned nor a host address |
| AddressEffects.CreatePoolEffect | src/db.rs:1555-1612 | A pool is stored unless its gateway lies outside or it shares an address with a stored one |
| AddressEffects.PatchPoolEffect | src/db.rs:1630-1678 | What a patch gives replaces what is stored, within gateway and MTU limits |
| AddressEffects.UpsertEffect | src/db.rs:1749-1876 | An upsert stores every column it was given, as unassigned; a detection keeps pool and gateway of a host address and adds its details |
| AddressEffects.AssignEffect | src/db.rs:1943-1995 | An address is given exactly if it is free, not barred and of no disabled pool, or the VM has it already; then it is used, the VM's, and primary exactly if asked for |
| AddressEffects.AssignDemotesExactly | src/db.rs:1943-1995 | The VM's other addresses of the family cease to be primary exactly if the new one is, and no other record changes |
| AddressEffects.ReleaseEffect | src/db.rs:1997-2017 | A used address becomes free without owner; any other is refused |
| AddressEffects.VmLeavesEffect | src/db.rs:1528-1551 | A VM that is deleted or cancelled frees its addresses and touches no other |
| InventoryStore.InventoryStore.CreatePoolWithInventory | src/routes/api.rs:2015-2066 | What the request answers and leaves, in every case: it succeeds exactly if the plan is accepted, no stored pool overlaps, no planned address is in use and the firewall accepts the pool, and then every planned address is stored as planned unless it is a host address; after a refused plan or an overlap nothing has changed; after any other failure the pool is gone again and so are the records of the planned addresses, host addresses aside, that come before the first one in use |
| PoolCreation.FailureLeavesInventoryExactly | src/db.rs:1699-1716 | A failed creation leaves the tables as they were if and only if it failed before the pool was stored or none of those planned addresses was in the inventory |
| PoolCreation.RefusedCreationLosesAnAddress | src/routes/api.rs:2041-2044 | It can lose one: 10.0.0.1 is free and 10.0.0.2 belongs to a VM, neither in a pool; creating 10.0.0.0/30 is refused, and 10.0.0.1 is gone |
| PoolCreation.ProtectedIsKept | src/db.rs:1770-1780 | Whatever happens, no address of a VM and no host address is touched |
| RateLimiter.BoundedRefinesUnbounded | src/rate_limit.rs:20-66 | Leaving out the calls refused for lack of room, the evicting limiter answers every sequence of calls and resets with a non-decreasing clock as an unbounded one does, and its buckets are among those of the unbounded one |
| RateLimiter.RunsStayBounded | src/rate_limit.rs:36-41 | No sequence of calls makes the table hold more than 10000 buckets |
| RateLimiter.WindowBound | src/rate_limit.rs:41-57 | With constant limit and window and no reset, any interval one window long lets through at most 2*limit - 1 calls for a key, whatever the evictions and the other keys |
| RateLimiter.WindowBoundIsTight | src/rate_limit.rs:47-53 | That bound is reached for every limit and every window of at least two seconds |
| RateLimiter.RefusedOnlyAtTheLimit | src/rate_limit.rs:54-57 | A call is refused for its key only if `limit` calls were accepted in the window that ends with it |
| RateLimiter.BucketCountsItsWindow | src/rate_limit.rs:41-57 | A bucket counts exactly the calls accepted in its own window, at most the limit |
| RateLimiter.RateLimiter.Check | src/rate_limit.rs:20-58 | The in-place update equals its specification and keeps the table bound |
| RateLimiter.CheckDecided | src/rate_limit.rs:35-57 | A well-configured call is refused for lack of room if and only if 10000 windows are running, limited if and only if the running window of its key has had its calls, and accepted and counted else |
| RateLimiter.CheckEvictsExactly | src/rate_limit.rs:36-41 | Another key loses its bucket if and only if the table holds 10000 and its window has passed |
| RateLimiter.NewKeyIsAccepted | src/rate_limit.rs:41-57 | A key without a bucket is accepted whenever there is room, whoever else calls |
| RateLimiter.RateLimiter.Reset | src/rate_limit.rs:60-66 | Removes exactly the key's bucket |
| Metrics.HistoryCoversTheRange | src/db.rs:2656-2693 | If the bucket numbers fit, exactly the newest sample of each non-empty bucket is returned, newest first, at most the limit of them, the latest included, and each sample in range has a returned one less than one bucket after it |
| Metrics.LimitDropsNothingExactly | src/db.rs:5554-5565 | The limit never drops a bucket, for all samples of a range, if and only if latest - since < limit * (i64::MAX / limit) |
| Metrics.WidthIsLeast | src/db.rs:5554-5565 | Where nothing saturates the buckets are as narrow as the limit allows |
| Metrics.SaturatedRangeDropsABucket | src/db.rs:5554-5565 | A range near the width of an i64 that does drop one |
| Metrics.WidthOf | src/db.rs:5554-5565 | In particular every range that does not saturate fits |
| Metrics.BoundedLimit | src/db.rs:5542-5552 | The limit is the one asked for, at most 10000, and 100 where none was |
| DiskSwap.Host.Reinstall | src/hypervisor/libvirt.rs:1215-1274 | After every operation before the commit the original content exists at the disk or the backup path; a failure leaves it at the disk path exactly when the rollback rename was not needed or worked; after the commit the disk is the new one; success and failure are decided exactly; other files are never touched |
| DiskSwap.Host.UndoSwap | src/hypervisor/libvirt.rs:1261-1271 | The rollback after failed media restores the original exactly when its rename works |
| DiskSwap.Host.Swap | src/hypervisor/libvirt.rs:1217-1231 | The two renames and the rollback between them |
| XmlText.TagRoundTrip | src/hypervisor/libvirt.rs:1788-1801 | Reading an element returns exactly the text that was escaped into it, for every text, when no earlier start marker of the tag occurs |
| XmlText.UnescapeEscape | src/hypervisor/libvirt.rs:1638-1645 | The five replacements that decode undo the five that encode, on every string |
| XmlText.EscapedTextIsInert | src/hypervisor/libvirt.rs:1638-1645 | Escaped text contains no markup or quote character |
| XmlText.EscapeCharacter | src/hypervisor/libvirt.rs:1638-1645 | The five markup characters are written as the entities of XML 1.0, each as its own, and all others as themselves |
| XmlText.EscapeConcat | src/hypervisor/libvirt.rs:1638-1645 | Texts are escaped piece by piece, however they are cut |
| XmlText.FindIsFirst | src/hypervisor/libvirt.rs:1788-1793 | The search returns the first occurrence |
| LinkTokens.LinkConsumedOnce | src/db.rs:3304-3348 | Over every run a link is exchanged successfully at most once |
| LinkTokens.SessionComesFromItsLink | src/db.rs:3350-3378 | A session authenticates only after an exchange of its link, strictly before the link's own expiry, within its time to live, from the address the link is bound to, and unrevoked |
| LinkTokens.LinkWorks | src/db.rs:3304-3378 | A new link can be exchanged once before it expires, from an address it is bound to; a customer session then authenticates exactly before the link's expiry, within its time to live and within an hour, and a VNC session exactly within ten minutes of the link's creation |
| LinkTokens.RowHistory | src/db.rs:3421-3480 | Every stored row was created by one earlier step and, if consumed, consumed by one later granted exchange |
| LinkTokens.PruningIsInvisible | src/db.rs:3531-3545 | Over every run with a non-decreasing clock and hashes never drawn twice, pruning changes the answer of no creation, exchange or authentication |
| LinkTokens.PruneNoticedExactly | src/db.rs:3531-3545 | Without that assumption, an exchange answers differently after a prune if and only if its link is open to the request and its session hash is one that a pruned row and no other holds |
| LinkTokens.PrunedHashIsGranted | src/db.rs:3304-3348 | An input where it does: the hash of a session that has ended is refused before the prune and granted after it |
| LinkTokens.TokenTable.Exchange | src/db.rs:3304-3348 | The customer and the VNC exchange, in place |
| LinkTokens.TokenTable.Authenticate | src/db.rs:3350-3378 | Authentication with its record of use, in place |
| LinkTokens.TokenTable.Create | src/db.rs:3266-3298 | Creation of a link; VNC links live ten minutes (lines 3421-3443) |
| LinkTokens.TokenTable.RevokeSession | src/db.rs:3408-3419 | Revocation writes a time only where there is none |
| LinkTokens.TokenTable.Prune | src/db.rs:3531-3545 | Removes exactly the rows that are revoked or over |
| LinkEffects.CreateEffect | src/db.rs:3266-3298 | When a link is stored, and every column of it |
| LinkEffects.ExchangeEffect | src/db.rs:3304-3348 | What becomes of an open link: denied, failed, or a session with its exact end |
| LinkEffects.AuthenticateEffect | src/db.rs:3350-3378 | Exactly a running session, from its address, authenticates, and only its time of use is written |
| LinkEffects.RevokeEffect | src/db.rs:3394-3419 | A revocation dates exactly its rows, where there is no date yet |
| LinkEffects.RevocationIsFinal | src/db.rs:3394-3419 | Over every run, no link or session of a revoked row is granted later |
| PolicyRevisions.AppliedIsEnforced | src/db.rs:2968-2995 | However edits, reconciliations, failures and crashes interleave, the applied revision never passes the current one, a policy whose applied revision is the current one is what the host enforces if and only if the loaded ruleset was not rendered without the VM for want of a domain, and no VM has more than 256 rules |
| PolicyRevisions.MarkProvesCurrent | src/services/firewall.rs:99-178 | A mark that succeeds was computed from the stored profile and rules, which the host then enforces if and only if the VM had a domain; a stale reconciler is refused |
| PolicyRevisions.AppliedWithoutADomain | src/services/firewall.rs:336-352 | A VM without a domain is marked applied although nothing is rendered for it, and stays unenforced when its domain is defined until the next reconciliation |
| PolicyRevisions.RevisionNamesPolicy | src/db.rs:4842-4854 | While a VM lives, equal revisions at two moments of a run mean the same profile and rules, so nothing was edited since the applied revision was read |
| PolicyRevisions.EditUnapplies | src/db.rs:3005-3183 | An edit that changes a policy makes its applied revision out of date at once |
| PolicyRevisions.EditBumps | src/db.rs:2874-2961 | An edit changes nothing (an empty patch among them) or raises the revision of its VM by one and touches no other VM |
| PolicyRevisions.StepKeepsInvariant | src/services/firewall.rs:52-185 | Each step keeps what the theorems need: a view with the current revision is the current policy |
| PolicyRevisions.PolicyStore.MarkVmNetworkSecurityApplied | src/db.rs:2968-2995 | Marks exactly the current revision as applied or failed |
| PolicyRevisions.PolicyStore.PatchVmNetworkSecurity | src/db.rs:2874-2963 | Merges a patch and bumps the revision unless it is empty or invalid |
| PolicyRevisions.PolicyStore.CreateVmFirewallRule | src/db.rs:3005-3068 | Adds a rule up to the limit and bumps the revision |
| PolicyRevisions.PolicyStore.PatchVmFirewallRule | src/db.rs:3092-3172 | Merges a rule patch and bumps the revision unless it is empty or invalid |
| PolicyRevisions.PolicyStore.DeleteVmFirewallRule | src/db.rs:3174-3183 | Deletes a rule of the VM and bumps the revision |
| PolicyEffects.PatchProfileEffect | src/db.rs:2874-2963 | The patch wins over the stored settings, the rest stays, and the revision goes up by one |
| PolicyEffects.MarkEffect | src/db.rs:2968-2995 | A mark is for exactly the current revision; a failure keeps what was applied |
| PolicyEffects.CreateRuleEffect | src/db.rs:3005-3068 | A rule is stored for its VM below 256 rules |
| PolicyEffects.PatchRuleEffect | src/db.rs:3092-3172 | The patch of a rule wins over what is stored |
| PolicyEffects.LoadEffect | src/services/firewall.rs:99-178 | The loaded ruleset holds what was read of every VM with a domain, and leaves out exactly the others |
| PolicyEffects.CurrentViewIsApplied | src/services/firewall.rs:99-185 | If a VM was not edited since it was read, loading and marking leave its current revision applied, and enforced exactly if it has a domain |
| Traffic.RestoresOnlyOwnBlocks | src/services/traffic.rs:55-100 | Over every run in which no flip of the link goes unrecorded, a link is switched on only if the last effective call switched it off, and a block is on record exactly while that is so |
| Traffic.StepKeepsInvariantExactly | src/services/traffic.rs:66-84 | Record and link stay in step if and only if the step does not lose the record of a flip |
| Traffic.UnrecordedFlipOverridesOperator | src/services/traffic.rs:66-84 | What a lost record can do: a link the operator took down is switched on again |
| Traffic.SuccessRecordsTheQuota | src/services/traffic.rs:55-100 | Success leaves the recorded flag equal to the quota test and no error; failure leaves the flag as it was, and a failed hypervisor call also the link |
| Traffic.ReconcileCallsExactly | src/services/traffic.rs:55-100 | The hypervisor is called exactly if the usage above the limit and the record differ, or to enforce a block anew, with the matching switch |
| Traffic.ReconcileRecordsExactly | src/services/traffic.rs:55-100 | What is on record and reported after, with the time of the block; a limit of zero is none |
| Traffic.RepeatIsQuiet | src/services/traffic.rs:55-100 | An unforced repeat after a success changes nothing and makes no hypervisor call |
| Traffic.VmTraffic.ReconcileLocked | src/services/traffic.rs:55-100 | The in-place reconciliation equals its specification |
| Traffic.VmTraffic.ResetUsageLocked | src/services/traffic.rs:111-123 | Clears the usage and moves to another accounting generation |

## Results that differ from what one would expect

- The key on a guest disk is not always usable. Two runs of ordinary requests lose it: a create job publishes the key
  a waiting reinstall has staged, and that reinstall is cancelled (`RaceLosesTheKey`); a reinstall without tools
  provides the guest with the active key and then deletes its record (`PlainReinstallLosesTheKey`).
  `RotationSafety.Breaks` lists, with a test each, all the steps that can do so, and `StepIsSafeExactly` proves that
  there are no others and that each does.
- Two of those tests look only at the record and the worker: no unarmed generation when a seed is built for a job that
  names none, and no seed with a key before a retirement. The other three need to know whether a key is in use, which
  the tables do not say: `TestIsExact` gives the best test that they allow. A request that nobody interrupts needs none
  (`UndisturbedRequestIsCareful`, `ContiguousRequestsAreSafe`).
- A refused reinstall request would delete a disabled guest-tools record (`RefusedRequestLeavesNothing`); no operation
  of the program disables one.
- A VM without a domain counts as having its policy applied (`AppliedWithoutADomain`); such VMs are the only ones
  (`AppliedIsEnforced`).
- The window bound of the rate limiter is `2 * limit - 1`, one less than the obvious `2 * limit`, and it is reached.
- The metric history drops buckets for ranges almost as wide as an i64; the exact condition is proved.
- Deleting expired links can be noticed in one way only: a colliding session hash (`PruneNoticedExactly`,
  `PrunedHashIsGranted`).
- When the last step of the disk swap, removing the backup, fails, the reinstall reports an error although the new
  disk is in place and committed.
- Traffic enforcement can override an operator after a lost record of a flip (`UnrecordedFlipOverridesOperator`).
- A failed pool creation does not always leave the inventory as it was: it removes unassigned addresses that it had
  taken over (`RefusedCreationLosesAnAddress`; `FailureLeavesInventoryExactly` says when).
- A host address does not always stay protected: a status that was checked before the address was detected overwrites
  it (`LateWriteDemotes`; `MainStaysMain` says when).

## Left out

- SQLite, JSON text, locks and cryptography: tables are maps, payloads are records with the inspected fields and a
  rest, an envelope is a secret with its context, and every transaction is one step.
- A job payload that is not a JSON object, blank envelopes and version strings: rejected before the modelled branches.
- Columns that no modelled branch reads: last error, result, progress, actor, update times.
- More than one job worker: the program runs jobs one after the other in a single loop.
- Database.Database.StageReinstall: describes a request that nobody interrupts; its single database calls, in any
  interleaving, are steps of `Deployment`. The choice of an installable image is not modelled.
- Database.Database.RecoverInterruptedJobs: does not model the update of the `snapshots` table, which no other modelled branch reads.
- Database.Database.CancelJob: does not model the snapshot branch, for the same reason.
- A seed that stays on its stable path when the disk swap after it fails: a guest gets a key only with its new disk.
- The generic enqueue operation used for reinstall, delete or bootstrap jobs: uniqueness is about the dedicated ones.
- InventoryStore.InventoryStore.CreatePoolWithInventory: describes a request that nobody interrupts; the firewall reconciliation enters as its verdict, and
  the second one, after a rollback, changes no table.
- RotationProgress.RotationCompletes: its request is undisturbed up to the queueing of its job; a guest that proves an armed key of an earlier
  attempt before the disk is replaced, and steps of other jobs on the same disk, are not among the steps that may come between.
- Text syntax of addresses, CIDRs and reserved lists: items arrive parsed; pool names, bridges, VLANs and DNS servers.
- Wrap-around of 64-bit revisions and job counters, which would need 2^63 edits.
- Metrics.HistoryCoversTheRange: ranges wider than an i64, where SQLite would turn the subtraction into floating point, do not satisfy its condition.
- What a running guest writes to its disk, and the state of the domain, during the disk swap; renames are atomic and
  a failed one changes nothing.
- RateLimiter.RateLimiter.Check: a poisoned lock is not modelled; keys are the joined namespace and key, so two pairs that join to the same text share a bucket, as in the program.
- LinkTokens.TokenTable.Create: the foreign key to the VM and the scopes of a customer link are not modelled; source addresses arrive canonical.
- PolicyRevisions.AppliedIsEnforced: addresses, pools and host switches also shape the ruleset but carry no VM revision; a host reboot that clears the ruleset is not a step; field validation enters as its verdict.
- Prune and listing queries, snapshots, uploads, HTTP handlers, roles, settings, the mock hypervisor, the guest agent
  and capacity admission with its floating-point ratios: single-branch facts or plumbing.
