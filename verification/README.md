# Leases, claims and certificates of the battery operator

This project models the parts of the battery operator that decide who may use a MicroVM, and proves what they promise over
every run. Check it with `dafny verify dfyconfig.toml`.

**The pool manager** (`internal/fakebattery`). `BatteryTypes` has its records, `BatterySections` one function for each critical
section under its lock, and a `Step` for each with the choices it makes. The calls in flight between two sections are part of
the state, so a run interleaves claims, provisioning, deletions, ticks and administration in any order. The histories (every
Lease ever granted, every answer, every event) are there to be reasoned about. `BatteryInvariant`, `BatteryPieces` and
`BatteryRuns` prove the invariant section by section; `BatteryTheorems`, `BatteryHistory`, `BatteryClaims`, `BatteryLinks`,
`BatteryOrder`, `BatteryRevival`, `BatteryPopulation`, `BatteryGains`, `BatteryOverfill`, `BatteryExpiry`, `BatteryLeases` and
`BatteryEvents` draw the theorems from it, with `BatteryFields` and `BatteryShape` as their view of what each section changes,
and `BatteryWitnesses` has the runs in which a property fails. `BatteryManager` is the manager as an object: the class
`Battery` has the source's maps as fields, its methods are the critical sections with the source's loops, and each is proved to
do what the section's function says. `BatteryDraining` is the specification of the loops that delete a Pool.

**The Claim Controller** (`internal/controller/claim`, `claimscope`). `World` puts one reconcile per claim against the API
server and the pool manager of the first part. Every call to battery runs a real section of it. A move may lose a request or an
answer, crash the controller, let the cache show any version between the one it showed and the stored one, renew, delete or
re-create a claim, or change another controller's finalizers. Metadata patches carry the optimistic lock; a status patch merges
the changed fields into whatever is stored. `WorldInvariant` and `WorldRuns` prove the protocol invariant, `WorldTheorems`
exclusivity, history and release, `WorldSound` what Expired and a recorded expiry mean, and `WorldWitness` has a course in
which a claim is Expired too early. `ClaimController` has the controller's objects with their methods and loops, tied to the
moves of `World`.

**Smaller parts.** `Chain` is the semantics of a chain of subreconcilers, `Csr` the certificate signer with its ledger of
address pins, `ExecRelay` the two directions of a relayed command, `PoolStall` the detector of a Pool that does not fill,
`FakeClock` the test clock, and `EventBus` the delivery of events. `ExecAgent`, in `Claim.dfy`, is the decision whether a
caller may use a MicroVM.

**Where a property does not hold.** DELETING is not final when a Pool is created again while MicroVMs of its key are tracked,
because being alive means only that the MicroVM and a Pool of its key exist. `RevivedExactly` gives the exact sections that
leave DELETING, `RevivalHappens` a run in which it happens, and `DeletingIsFinal` shows that runs without such a re-creation
(`CleanRun`) are free of it. Three properties fail in the same way, each by a section that is named exactly, and hold over
every run without that section. The population of a Pool exceeds its size (`BreaksExactly`, `OverfillsExactly`); a MicroVM
comes into a drained Pool (`DrainedGains`); a Lease is held on a MicroVM whose deletion was reported (`ReportedExactly`).
`RecreationHappens` has runs in which a REPLACE_ON_DELETE and a MIN_SIZE_THRESHOLD Pool exceed their size and the other two
happen. A claim that holds such a Lease can be stored Expired while the Lease is held and has not run out, as the course
`ExpiredWhileHeld` shows; `ExpiredIsSound` says that over every course no other claim can, but for a Lease whose expiry had
passed when a reconcile read it. The corollaries `CleanBound`, `TidyOverfills` and `CleanExpiredIsSound` are about runs without
a re-creation. The lease table, leased-once, exclusivity and the theorems about expiries do not need the assumption.
IMMEDIATE_ON_LEASE has no upper bound even then (`NoUpperBound`): besides a revival, the tick overfills a Pool while a claim is
in its hooks. An expiry can move back, exactly as `ShortensExactly` says, when a Pool gets a shorter threshold
(`ExpiryMovesBack`), so the theorems about expiries assume that it does not (`Steady`).

**Where code and documents differ.** Requirement BA-075 has the tick count claiming MicroVMs for IMMEDIATE_ON_LEASE and leave
out DELETING ones for REPLACE_ON_DELETE; the code does neither (`internal/fakebattery/reconcile.go:101-109`). The model follows
the code, and `DeficitAsRequired` and `ShortfallIsDeficit` say when the two agree.

**Assumptions.** Lease ids, MicroVM uids and claim uids are new when they are given out. One reconcile runs at a time per
claim. Only the Operator takes the release finalizer off a claim or writes its status. The cache of a claim shows its versions
in order. Battery and the controller read one clock that never goes back. Only the Operator writes the ledger of address pins,
and Kubernetes refuses a request both Approved and Denied.

## Model

| member | source | states |
|---|---|---|
| `BatteryTheorems.RunInv` | internal/fakebattery/ops.go:278-376 | Over every run from the start, under any interleaving of claims, heartbeats, releases, provisioning, deletions, ticks, Pool and Host administration, the whole invariant holds: Lease table, uids, workers, phases, requests, ledger, hosts, answers, sweeps and event numbers. |
| `BatteryTheorems.StepInv` | internal/fakebattery/reconcile.go:543-564 | Every critical section of the manager keeps that invariant. |
| `BatteryTheorems.LeaseTable` | internal/fakebattery/ops.go:336-376 | In every reachable state a held Lease names a tracked MicroVM of its Pool that points back to it and is LEASED or DELETING, its Pool exists, and no other held Lease has its MicroVM or its non-empty request id; so the missing-MicroVM and missing-Pool branches of release, replay and heartbeat are never taken. |
| `BatteryTheorems.LeasedOnce` | internal/fakebattery/ops.go:316-371 | Two Leases ever held on one MicroVM, at any two points of any run, are the same Lease. |
| `BatteryTheorems.NeverAvailableAgain` | internal/fakebattery/reconcile.go:344-356 | A MicroVM that was LEASED is not AVAILABLE at any later point of any run, even across deletion and re-creation of its Pool. |
| `BatteryTheorems.EndedForever` | internal/fakebattery/state.go:148-157 | A Lease that ended is never held again. |
| `BatteryTheorems.ReleaseIsFinal` | internal/fakebattery/ops.go:510-549 | Once a ReleaseVM was answered with success or NOT_FOUND, its Lease is not held then or at any later point. |
| `BatteryTheorems.RunGrows` | internal/fakebattery/state.go:207-213 | Between any two points of a run the clock, ids, uids, answers and log only grow; a Lease keeps its MicroVM, Pool and request id; a tracked MicroVM keeps its Pool, Host and uid. |
| `BatteryTheorems.EventsAreNumbered` | internal/fakebattery/events.go:51-72 | In every run the events of one Pool record are numbered 1, 2, 3 and so on in the order they were appended, and the record's counter is the newest id. |
| `BatteryLinks.RunLinked` | internal/fakebattery/ops.go:358-371 | In every run the lease id a MicroVM carries is that of the Lease granted for that MicroVM in its own Pool, so dropping the Leases of a Pool's MicroVMs drops no other Pool's Lease. |
| `BatteryClaims.StepIsAtomic` | internal/fakebattery/ops.go:278-376 | Whatever section answers a ClaimVM with a Lease is an atomic claim of it: either the Lease was held for that Pool and request id and no Lease changed, or it is new and only it was added. |
| `BatteryClaims.OneClaim` | internal/fakebattery/ops.go:309-352 | However many ClaimVM calls with one request id run concurrently, while the Lease created with that id is held every call that succeeds is answered with that Lease and its MicroVM. |
| `BatteryClaims.LosingClaimYields` | internal/fakebattery/ops.go:341-352 | A call that finds the Lease of its request id when its hooks are done puts its own MicroVM back to AVAILABLE, changes no Lease and no expiry, and answers with that Lease or an error. |
| `BatteryClaims.HeldBetween` | internal/fakebattery/ops.go:381-416 | A Lease held at two points of a run was held all along in between, with the same MicroVM, Pool and request id. |
| `BatteryClaims.OthersGrantNothing` | internal/fakebattery/ops.go:392-416 | No section other than the two of a ClaimVM answers with a Lease. |
| `BatteryOrder.StepOrder` | internal/fakebattery/reconcile.go:261-357 | Where no Pool is created over tracked MicroVMs of its key, every section moves phases only along the legal moves and leaves every call in flight with its MicroVM in the phase it expects. |
| `BatteryRevival.DeletingIsFinal` | internal/fakebattery/reconcile.go:489-517 | In a run in which no Pool is created over tracked MicroVMs of its key, no section revives a MicroVM, so one that is DELETING stays so for as long as it is tracked. |
| `BatteryOrder.RecreationRevives` | internal/fakebattery/state.go:207-213 | Without that assumption it does not: from any state with a provisioning past creation, deleting the Pool and creating it again lets the provisioning take the MicroVM out of DELETING. |
| `BatteryRevival.RevivedExactly` | internal/fakebattery/reconcile.go:361-369 | In any reachable state and for any section, a DELETING MicroVM leaves DELETING if and only if the section is one of five by a call that still works on it and a Pool of its key exists. |
| `BatteryRevival.StaysDeleting` | internal/fakebattery/reconcile.go:361-369 | In any run, re-creation or not, a DELETING MicroVM stays DELETING while tracked unless one of those sections runs for it. |
| `BatteryRevival.TidyRevivesNothing` | internal/fakebattery/state.go:207-213 | Where every call in flight finds its MicroVM in the phase it expects, none of those sections can run for a DELETING MicroVM. |
| `BatteryRevival.RevivalHappens` | internal/fakebattery/ops.go:148-220 | A concrete run from the empty manager, with one Host and one Pool of size one, in which MicroVM 1 is DELETING and two steps later runs its create hooks. |
| `BatteryGains.PopulationBound` | internal/fakebattery/reconcile.go:91-114 | Between spec changes, over every run, what REPLACE_ON_DELETE or MIN_SIZE_THRESHOLD counts never exceeds the larger of the size and the count at the last change, unless a section that BreaksExactly names runs. |
| `BatteryGains.BreaksExactly` | internal/fakebattery/reconcile.go:224-250 | In any reachable state, while the spec of such a Pool stays, a section takes its count above the larger of the size and what it was if and only if there is no room for what it adds: a MicroVM taken out of DELETING (MIN_SIZE_THRESHOLD), a quarantined one marked DELETING or forgotten and replaced (REPLACE_ON_DELETE), or the batch of a claim granted under a deleted Pool of the key. |
| `BatteryGains.CleanBound` | internal/fakebattery/reconcile.go:91-114 | Over every run in which no Pool is created over tracked MicroVMs of its key there is no such section, so the bound holds throughout. |
| `BatteryPopulation.TickFills` | internal/fakebattery/reconcile.go:126-203 | After the tick of a running manager has looked at a Pool with an eligible Host, what the strategy counts is at least the size, except for MIN_SIZE_THRESHOLD while enough MicroVMs are available. |
| `BatteryPopulation.CommitAdds` | internal/fakebattery/reconcile.go:68-73 | With IMMEDIATE_ON_LEASE a granted claim adds exactly one to what is available or provisioning, whatever the size. |
| `BatteryOverfill.OverfillsExactly` | internal/fakebattery/reconcile.go:91-114 | In any reachable state, while the spec of an IMMEDIATE_ON_LEASE Pool stays, a section takes its available, claiming and provisioning MicroVMs above the larger of the size and what they were if and only if it is the Pool's tick on a manager that can place, with a deficit, while a claim is in its hooks, or it takes a MicroVM out of DELETING with no room for it or its replacement; the tick then places more than the size less that sum. |
| `BatteryOverfill.FillingBound` | internal/fakebattery/reconcile.go:91-114 | So over every run in which no such section runs that sum never exceeds the larger of the size and what it was; other grants and yields do not raise it. |
| `BatteryOverfill.TidyOverfills` | internal/fakebattery/reconcile.go:91-114 | Where no Pool was created over tracked MicroVMs of its key, only the tick is such a section. |
| `BatteryOverfill.DeficitAsRequired` | internal/fakebattery/reconcile.go:84-103 | The number the tick provisions is the size less the available, claiming and provisioning MicroVMs, as requirement BA-075 says, exactly when no MicroVM is claiming or it provisions nothing. |
| `BatteryWitnesses.NoUpperBound` | internal/fakebattery/reconcile.go:98-103 | For every n a run from the empty manager ends with more than n available and provisioning MicroVMs above the size of an IMMEDIATE_ON_LEASE Pool. |
| `BatteryPopulation.DrainedShrinks` | internal/controller/pool_deletion.go:152-171 | Over every run, a Pool that holds the drained spec never has a MicroVM it did not have before, unless a commit that DrainedGains names runs. |
| `BatteryPopulation.DrainedGains` | internal/controller/pool_deletion.go:152-171 | In any reachable state a section brings a MicroVM into a Pool with the drained spec if and only if it is the commit of a claim that began under a deleted IMMEDIATE_ON_LEASE Pool of the same key, on a running manager with an eligible Host of that Pool. |
| `BatteryPopulation.DrainedExactly` | internal/controller/pool_deletion.go:152-171 | A spec is recognised as drained exactly if draining it changes nothing; draining keeps a valid spec valid. |
| `BatteryPopulation.BatchBalanced` | internal/fakebattery/state.go:236-273 | Under least-VMs placement a batch of any size never makes the gap between the fullest and emptiest eligible Host of the Pool larger than the greater of one and the gap before. |
| `BatteryPopulation.CordonedShrinks` | internal/fakebattery/hostadmin.go:296-321 | While a Host stays cordoned or unregistered, the MicroVMs tracked on it only become fewer, in every run. |
| `BatteryPopulation.HostsHeldInRuns` | internal/fakebattery/hostadmin.go:143-159 | In every run every Host that a Pool names or a tracked MicroVM is on is registered, whatever order Hosts are added, updated, cordoned and removed in. |
| `BatteryExpiry.DeletionIsFinal` | internal/controller/claim/deleted.go:40-45 | Over every run without re-creation, a MicroVM whose deletion an event reported has no Lease, then or ever after. |
| `BatteryExpiry.ExpiryMovesOn` | internal/fakebattery/ops.go:477-504 | In any run in which no Pool gets a shorter threshold than it or a deleted Pool of its key had, the expiry of a held Lease never moves back. |
| `BatteryLeases.ShortensExactly` | internal/fakebattery/ops.go:477-504 | In any reachable state and for any section, the expiry of a held Lease moves back if and only if the section is its Heartbeat and the expiry is later than the Pool's threshold from now. |
| `BatteryWitnesses.ExpiryMovesBack` | internal/fakebattery/ops.go:500-503 | A state that a run from the empty manager reaches, after an UpdatePool with a shorter threshold, in which a Heartbeat makes an expiry earlier. |
| `BatteryLeases.StepCalm` | internal/fakebattery/reconcile.go:543-564 | Whatever section runs, a held Lease was held unchanged before, or was changed by its own Heartbeat, or was granted by it, and a MicroVM whose deletion it reported has no Lease. |
| `BatteryLeases.ReportedExactly` | internal/controller/claim/deleted.go:40-45 | In any reachable state without one, a section leaves a Lease held on a MicroVM whose deletion was reported if and only if it grants a claim a MicroVM whose deletion was reported during its hooks. |
| `BatteryLeases.RunNoneReported` | internal/controller/claim/deleted.go:40-45 | In any run no Lease is held on a MicroVM whose deletion was reported, for as long as no such grant is made. |
| `BatteryWitnesses.RecreationHappens` | internal/fakebattery/ops.go:336-376 | For every valid spec of size zero with REPLACE_ON_DELETE or MIN_SIZE_THRESHOLD on the one Host, a state that a run from the empty manager reaches, with a Pool deleted by force and created again with the spec, in which one commit grants a Lease on a MicroVM whose deletion was reported and takes the count above the larger of the size and what it was; if the spec is the drained one, it brings a MicroVM into the Pool. |
| `BatteryManager.Battery.constructor` | internal/fakebattery/battery.go:157-196 | A new manager is the empty state and satisfies the invariant. |
| `BatteryManager.Battery.FindLease` | internal/fakebattery/ops.go:381-388 | The held Lease of a request id, or none if no held Lease has it or the id is empty. |
| `BatteryManager.Battery.OldestAvailable` | internal/fakebattery/state.go:217-228 | The available MicroVM of the Pool that was updated first, ties broken by id, or none if none is available. |
| `BatteryManager.Battery.CountPhases` | internal/fakebattery/state.go:172-193 | The loop's five counts are the cardinalities of the sets of the Pool's MicroVMs in those phases. |
| `BatteryManager.Battery.Loads` | internal/fakebattery/state.go:254-265 | For every Host, the loop's count is the number of the Pool's MicroVMs on it that are not DELETING. |
| `BatteryManager.Battery.LeastLoaded` | internal/fakebattery/state.go:254-272 | The first of the candidates with the fewest of the Pool's MicroVMs. |
| `BatteryManager.Battery.PickHost` | internal/fakebattery/state.go:236-273 | The Host that round-robin or least-VMs placement gives among the registered, uncordoned Hosts of the spec, or none if there is none. |
| `BatteryManager.Battery.HoldsHosts` | internal/fakebattery/hostadmin.go:143-159 | Whether every Host the spec names is registered. |
| `BatteryManager.Battery.AppendEvent` | internal/fakebattery/events.go:51-72 | Appends one event with the Pool's next id, or nothing for a Pool that does not exist. |
| `BatteryManager.Battery.ForgetLease` | internal/fakebattery/state.go:148-157 | Removes the Lease and its warning; an unknown id changes nothing. |
| `BatteryManager.Battery.Provision` | internal/fakebattery/reconcile.go:224-250 | Reserves up to n MicroVMs one by one until no Host is eligible, starts their provisioning and reports once if it reserved any; nothing before the manager runs. |
| `BatteryManager.Battery.CreatePool` | internal/fakebattery/ops.go:89-105 | The whole new state, and accepted exactly if the spec is valid, its Hosts are registered and the key is new. |
| `BatteryManager.Battery.UpdatePool` | internal/fakebattery/ops.go:110-138 | The whole new state, and accepted exactly if the spec is valid, its Hosts are registered and the Pool exists. |
| `BatteryManager.Battery.DeletePool` | internal/fakebattery/ops.go:148-220 | Refused for an unknown Pool, and without force for one with a leased or claiming MicroVM; otherwise the loops over MicroVMs and Leases leave exactly the drained state: each MicroVM marked and reported in id order, every Lease of the Pool dropped, the Pool gone, the deletions started. |
| `BatteryManager.Battery.AddHost` | internal/fakebattery/hostadmin.go:162-207 | The whole new registry, and accepted exactly for a new name with a name and an address. |
| `BatteryManager.Battery.UpdateHost` | internal/fakebattery/hostadmin.go:210-253 | The whole new registry; a Host keeps whether it is cordoned. |
| `BatteryManager.Battery.RemoveHost` | internal/fakebattery/hostadmin.go:257-293 | Removed exactly if it is registered, no Pool names it and no MicroVM is on it. |
| `BatteryManager.Battery.SetCordoned` | internal/fakebattery/hostadmin.go:296-321 | Only the cordon of that one Host changes. |
| `BatteryManager.Battery.ClaimSelect` | internal/fakebattery/ops.go:278-329 | The first section of a ClaimVM: the choice it makes is a permitted one, and the state is what the section's function says, for every early answer and for a selected MicroVM. |
| `BatteryManager.Battery.ClaimCommit` | internal/fakebattery/ops.go:336-376 | The last section of a ClaimVM: NOT_FOUND for a MicroVM or Pool that went, a yield for a request id that has a Lease, otherwise a stored Lease and the strategy's replacement. |
| `BatteryManager.Battery.ClaimFail` | internal/fakebattery/ops.go:331-334 | A failed pre-lease hook ends the call with an error and applies the Pool's failure policy to a MicroVM whose Pool exists. |
| `BatteryManager.Battery.ApplyHookPolicy` | internal/fakebattery/reconcile.go:435-474 | Quarantines the MicroVM, or marks it and starts its deletion; its Lease id is cleared and the failure reported. |
| `BatteryManager.Battery.Heartbeat` | internal/fakebattery/ops.go:477-504 | Moves the expiry to the Pool's threshold from now and answers with it, or answers none and changes nothing. |
| `BatteryManager.Battery.ListLeases` | internal/fakebattery/ops.go:456-470 | Exactly the held Leases of the Pool, or of all Pools. |
| `BatteryManager.Battery.ReleaseVM` | internal/fakebattery/ops.go:510-549 | NOT_FOUND for an unknown Lease; otherwise reports the release once for the MicroVM and starts its deletion. |
| `BatteryManager.Battery.DropReserved` | internal/fakebattery/reconcile.go:374-381 | A reservation that could not be created is forgotten. |
| `BatteryManager.Battery.Created` | internal/fakebattery/reconcile.go:299-315 | The Host's uid is recorded and reported if the MicroVM and its Pool still exist. |
| `BatteryManager.Battery.RunCreateHooks` | internal/fakebattery/reconcile.go:330-333 | The MicroVM moves to its create hooks if it is alive. |
| `BatteryManager.Battery.CreateFailed` | internal/fakebattery/reconcile.go:317-343 | A failed creation applies the policy that the MicroVM was reserved with. |
| `BatteryManager.Battery.MakeAvailable` | internal/fakebattery/reconcile.go:344-356 | The MicroVM becomes AVAILABLE and is reported if it is alive. |
| `BatteryManager.Battery.MarkDeleting` | internal/fakebattery/reconcile.go:489-505 | Marks the MicroVM; the call goes to the Host exactly if the MicroVM is tracked and no other deletion is there. |
| `BatteryManager.Battery.DeletionFailed` | internal/fakebattery/reconcile.go:507-514 | A deletion its Host refused leaves the MicroVM DELETING with none in flight, and a waiting ReleaseVM unavailable. |
| `BatteryManager.Battery.Confirmed` | internal/fakebattery/reconcile.go:543-564 | Once the Host has confirmed, the MicroVM and its Lease go, the recorded event is reported and the strategy's replacement starts. |
| `BatteryManager.Battery.TickPool` | internal/fakebattery/reconcile.go:172-183 | Tops one Pool up by what its strategy is short of, reporting a shortfall except right after a spec change. |
| `BatteryManager.Battery.SweepLeases` | internal/fakebattery/reconcile.go:149-166 | Ends exactly the Leases whose expiry is at or before the tick's time; every state on the way satisfies the invariant. |
| `BatteryManager.Battery.DueAgain` | internal/fakebattery/reconcile.go:167-171 | Exactly the DELETING MicroVMs with a uid and no deletion in flight. |
| `BatteryManager.Battery.RetryDeletions` | internal/fakebattery/reconcile.go:193-203 | Every one of them has a deletion wanted again, and nothing else changes. |
| `BatteryManager.Battery.TopUp` | internal/fakebattery/reconcile.go:172-183 | Every Pool is topped up exactly once, one after the other. |
| `BatteryManager.Battery.Tick` | internal/fakebattery/reconcile.go:126-203 | One pass is a run of sweep, warn, top-up and retry steps only: it ends exactly the expired Leases, tops every Pool up once, and then wants again every deletion that was due. |
| `BatteryDraining.DrainDone` | internal/fakebattery/ops.go:190-208 | Marking a Pool's MicroVMs and dropping Leases one at a time comes to the one-step deletion of the Pool. |
| `WorldRuns.CourseOk` | internal/controller/microvmclaim_controller.go:95-158 | Over every course of the controller against battery and the API server, with crashes, lost answers, stale caches and writes by others, the whole protocol invariant holds. |
| `WorldTheorems.Exclusive` | internal/controller/claim/bind.go:77-233 | Two claims with different uids, stored at any two points of any course and under any names, never record the same MicroVM. |
| `WorldTheorems.NeverBothAuthorized` | internal/execagent/claims.go:103-152 | No two claims with different uids ever pass the Exec Agent's check for one MicroVM, at any times and for any callers and Hosts. |
| `WorldTheorems.HistoryMovesOn` | internal/controller/claimscope/scope.go:118-130 | From one stored version of a claim to any later one, the recorded Lease, MicroVM and Host stay once written and the phase only moves forward, although the status patch is unlocked and the cache lags. |
| `WorldTheorems.MoveStored` | internal/controller/claimscope/scope.go:87-131 | After any move a stored claim is a later version of what was stored, or a new claim with a new uid. |
| `WorldTheorems.ClaimsOnlyStored` | internal/controller/claim/bind.go:78-106 | ClaimVM is called only for a claim that the API server stores with the release finalizer and no Lease, on its Pool and under its own uid. |
| `WorldTheorems.ReleaseIsSafe` | internal/controller/claim/release.go:60-116 | The release finalizer leaves a stored claim only by the locked patch, and only if the stored status has no Lease or battery had ended exactly that Lease. |
| `WorldTheorems.ReleasedForGood` | internal/controller/claim/release.go:60-116 | Once it has left, the recorded Lease is not held then or at any later point of the course. |
| `WorldSound.ExpiredIsCaused` | internal/controller/claim/expiry.go:56-135 | Over every course a claim is stored Expired only if battery does not hold its Lease at any later point, or battery's own expiry of it had passed when a reconcile whose copy had no renewal left to relay read it, or battery had reported its MicroVM deleted; through heartbeats, lists, recovery and events. |
| `WorldSound.ExpiredIsSound` | internal/controller/claim/deleted.go:115-132 | Over every course, the third of these is a Lease that has ended for good too, unless battery granted it on a MicroVM whose deletion it had reported while the claim's hooks ran. |
| `WorldSound.CleanExpiredIsSound` | internal/controller/claim/deleted.go:115-132 | Over every course in which no Pool is created over tracked MicroVMs of its key there is no such grant: a claim is stored Expired only if its Lease has ended for good or had run out. |
| `WorldWitness.ExpiredWhileHeld` | internal/controller/claim/deleted.go:115-132 | A course from the empty world in which a Pool is deleted by force and created again during a claim's hooks, and which ends with the claim stored Expired while battery holds its Lease, the Lease has not run out, and no reconcile found it to have run out. |
| `WorldSound.ExpiryNeverOverstated` | internal/controller/claim/renew.go:113-177 | Over every course in which no threshold is made shorter, a stored expiry is never later than battery's own while battery holds the Lease, over lost answers, recovery records and stale copies. |
| `WorldSound.AuthorizedNotSwept` | internal/execagent/claims.go:139-149 | Over every such course a claim that passes the Exec Agent's check at a time not behind battery's clock has not been swept for expiry. |
| `WorldSound.RecordedGranted` | internal/controller/microvmclaim_recovery.go:60-91 | The Leases that recovery asks about were granted before it asks, because the claims are listed first. |
| `WorldSound.AnswerTruth` | internal/controller/claim/expiry.go:76-102 | What a list, filtered by the claim's own Pool or not, leaves out has ended for good, and an expiry it gives is battery's own. |
| `ExecAgent.OneReadDecides` | internal/execagent/claims.go:166-187 | Reading the one claim that the token names allows a caller exactly if some claim of any name would. |
| `ClaimController.Scope.Begin` | internal/controller/microvmclaim_controller.go:129-158 | The steps in their order up to the first that waits do what the protocol's first move does. |
| `ClaimController.Scope.Release` | internal/controller/claim/release.go:87-115 | Only success and NOT_FOUND take the finalizer off. |
| `ClaimController.Scope.Bind` | internal/controller/claim/bind.go:82-127 | Bind goes on only from a stored claim without a Lease, with the finalizer and not deleted, and asks under the uid of that copy. |
| `ClaimController.Scope.Claimed` | internal/controller/claim/bind.go:145-232 | A granted claim is recorded in one status with its Lease, MicroVM, Host and relayed renewal; exhausted, not found and aborted leave it Pending; any other error changes nothing. |
| `ClaimController.Scope.ExpireDeleted` | internal/controller/claim/deleted.go:115-132 | Expires the claim exactly if its MicroVM was reported deleted. |
| `ClaimController.Scope.RecoverLease` | internal/controller/claim/recover.go:118-152 | Expires the claim whose Lease recovery found not held, takes a later expiry and ignores an earlier one, and uses a record up. |
| `ClaimController.Scope.Renew` | internal/controller/claim/renew.go:132-177 | An answered Heartbeat writes the expiry and the relayed renewTime together; NOT_FOUND expires the claim. |
| `ClaimController.Scope.CheckExpiry` | internal/controller/claim/expiry.go:58-69 | The Leases are listed exactly if the status has no expiry or one that has passed. |
| `ClaimController.Scope.CheckListed` | internal/controller/claim/expiry.go:96-135 | The search loop over the Pool's Leases expires a claim whose Lease is missing or has run out, and otherwise takes battery's expiry. |
| `ClaimController.Scope.Patch` | internal/controller/claimscope/scope.go:87-131 | A changed finalizer is written only from the stored version, and the status then as a merge of the fields that differ from what is stored by then; alone, each is the protocol's move. A refused patch writes nothing, and a conflict is reported exactly for a stale finalizer write. |
| `ClaimController.ClaimStore.PatchMetadata` | internal/controller/claimscope/scope.go:103-117 | The locked patch goes through exactly from the stored version. |
| `ClaimController.ClaimStore.PatchStatus` | internal/controller/claimscope/scope.go:118-130 | The unlocked merge patch of the fields that differ from the base. |
| `ClaimController.RecoveredLeases.Record` | internal/controller/claim/recover.go:58-77 | The two loops keep, for exactly the Leases recorded before the list, what battery held of them. |
| `ClaimController.RecoveredLeases.Lookup` | internal/controller/claim/recover.go:84-92 | A record is handed out once; that a Lease is not held is kept. |
| `ClaimController.Recover` | internal/controller/microvmclaim_recovery.go:60-91 | One recovery keeps battery's word on exactly the Leases of Bound claims not being deleted, and returns exactly those claims. |
| `ClaimController.DeletedVMs.Add` | internal/controller/claim/deleted.go:67-84 | Adds the MicroVM and forgets exactly those noted longer ago than the retention. |
| `ClaimController.Search` | internal/controller/claim/expiry.go:96-102 | The loop finds the first record of the Lease. |
| `ClaimController.ListedInPool` | internal/controller/claim/expiry.go:76-102 | What the list of a Pool's Leases says of a Lease is what battery holds of it in that Pool. |
| `Chain.MergeTakesTheShortest` | internal/reconcile/chain.go:54-60 | Merging takes the shorter of the waits that were asked for, and stops if either stops. |
| `Chain.MergeAssociates` | internal/reconcile/chain.go:54-60 | The order of merging does not matter to the stop or the wait. |
| `Chain.Run` | internal/reconcile/chain.go:104-127 | The loops over steps and finally-steps fold exactly as specified, with errors joined in order. |
| `Chain.RunCut` | internal/reconcile/chain.go:104-127 | A chain cut in two runs its second part exactly if the first ran to its end, and from where it left off. |
| `Chain.FinallyCannotStop` | internal/reconcile/chain.go:118-126 | The finally-steps always run, cannot stop the chain and lose no error. |
| `Csr.PinsStay` | internal/controller/csr_pins.go:133-206 | Over all reconciles with stale reads, a pin is never changed or removed and no address is pinned to two Nodes. |
| `Csr.CertificatesArePinned` | internal/controller/csr_scope.go:92-138 | Every stored certificate is for the requested Node and address, beside no Denied or Failed, and a serving one names the address pinned to its Node. |
| `Csr.CourseOk` | internal/controller/csr_subreconcilers.go:34-164 | The signer's invariant holds in every reachable state. |
| `Csr.NewAddressPins` | internal/controller/csr_pins.go:58-68 | The loop's index maps every address to exactly the Nodes pinned to it. |
| `Csr.PinIndex.Of` | internal/controller/csr_pins.go:100-110 | The cached index is always the index of the ConfigMap asked about. |
| `Csr.Scope.CheckAddress` | internal/controller/csr_pins.go:133-188 | The address is refused exactly if the Node is pinned to another or it is pinned to another Node, and a new pin is noted exactly for a Node without one. |
| `Csr.Scope.Run` | internal/controller/csr_subreconcilers.go:34-164 | The chain leaves the scope with exactly what the decision asks to write: nothing, Denied, Failed, or the approval, the pin and the certificate. |
| `ExecRelay.RelayIsFaithful` | internal/execagent/server.go:221-296 | For every interleaving of the two directions the caller receives a prefix of what flintlockd sent, the response ends OK exactly when its last message is the exit code, nothing follows an exit code, and flintlockd gets one start message. |
| `ExecRelay.EndedStays` | internal/execagent/server.go:221-296 | Once the response has ended, what the caller received stays as it is. |
| `ExecRelay.EndCode` | internal/execagent/server.go:262-296 | An error never ends the response OK. |
| `PoolStall.PoolStalls.Observe` | internal/controller/pool_stall.go:88-124 | After any sightings at non-decreasing times it reports not filling exactly when two stalled sightings a minute apart lie in the current unbroken run of the shortfall, since the first of them, and otherwise asks for another look at a stalled Pool within the minute. |
| `PoolStall.PoolStalls.Forget` | internal/controller/pool_stall.go:78-82 | Only the one Pool's history is dropped. |
| `PoolStall.ShortfallIsDeficit` | internal/controller/pool_stall.go:132-142 | The shortfall less what is provisioning is what the tick starts: always for IMMEDIATE_ON_LEASE, and for REPLACE_ON_DELETE exactly while no MicroVM is DELETING or nothing is to be started. |
| `PoolStall.NotedRemembers` | internal/controller/pool_stall.go:88-124 | The one remembered record refines the whole history of sightings. |
| `FakeClock.Fake.Set` | internal/clock/fake.go:111-128 | Fires exactly the timers due by the time, once each, in the order of deadline and arming, each at its own deadline; an empty channel of a fired timer holds its deadline and every other channel stays; the timers left keep their order and are after Now; the counters stay. |
| `FakeClock.Fake.NextDue` | internal/clock/fake.go:132-143 | The timer that is due first, ties broken by arming, or none if none is due. |
| `FakeClock.Fake.Arm` | internal/clock/fake.go:71-83 | A positive delay is pending until then; any other fires at once. |
| `FakeClock.Fake.Remove` | internal/clock/fake.go:87-99 | Takes the timer out of the list, keeps the order of the rest, and says whether it was there. |
| `FakeClock.Fake.NewTimer` | internal/clock/fake.go:62-68 | A new timer is armed under a new id, and nothing else changes. |
| `FakeClock.Fake.Stop` | internal/clock/fake.go:208-212 | Says whether the timer was pending, and it no longer is. |
| `FakeClock.Fake.Reset` | internal/clock/fake.go:216-226 | Says whether the timer was pending, drops a value nobody took, and arms it for exactly the new deadline; every other timer stays. |
| `FakeClock.Fake.Fire` | internal/clock/fake.go:197-202 | Delivers without blocking: a value that waits stays. |
| `FakeClock.CutOrder` | internal/clock/fake.go:111-128 | Setting the clock to t and then to u fires the same timers in the same order as setting it to u at once, and leaves the same clock: time, pending timers in order, counters and channels. |
| `FakeClock.OneOrder` | internal/clock/fake.go:132-143 | There is only one firing order of a set of timers. |
| `EventBus.EventBus.Publish` | internal/fakebattery/events.go:113-131 | The event is offered to every subscriber, one with a full buffer is dropped, and every other subscriber still follows its Pools' logs without a gap. |
| `EventBus.EventBus.Subscribe` | internal/fakebattery/events.go:136-151 | The backlog is the Pool's last kept events, and the subscriber follows the log from there. |
| `EventBus.EventBus.SubscribeAll` | internal/fakebattery/events.go:136-151 | The backlog has, Pool by Pool, the last kept events of every Pool. |
| `EventBus.EventBus.Send` | internal/fakebattery/server.go:215-225 | Sending moves the first waiting event to what was sent and keeps the subscriber on its logs. |
| `EventBus.EventBus.InSequence` | internal/fakebattery/events.go:113-151 | For every subscriber that was not dropped and every Pool of it that was not created again, the backlog, what was sent and what waits have consecutive ids that end at the newest event. |
| `BatteryEvents.BusIsNumbered` | internal/fakebattery/events.go:51-72 | In every run the events of a Pool that was not created again come with the ids 1, 2, 3 and so on. |
| `BatteryEvents.DeliveredInSequence` | internal/fakebattery/events.go:51-131 | On a bus that has published what the manager logged in any run, no such Pool counts as restarted, and a subscriber that was not dropped has its last events with consecutive ids that end at the newest. |
| `EventBus.OfferFollows` | internal/fakebattery/events.go:113-131 | An offer keeps backlog, sent and queue the gap-free, duplicate-free end of each Pool's log. |

## Left out

- gRPC transport, TLS, dialling, proto conversion and error texts: only the error classes are kept.
- Fault injection, shutdown, latency and the registry calls that only tests use.
- Hook commands, templates, guest interfaces and event payloads: a hook only succeeds or fails, and an event has its Pool, id, MicroVM and type.
- The cancellation of a Pool's provisioning by UpdatePool and DeletePool: a provisioning may fail or go on at each of its sections, whether or not it was cancelled.
- The phase FAILED, which nothing sets.
- Orphans on a Host whose Pool went during creation are not tracked further.
- BatteryManager.Battery.DeletePool: the deletions on the Hosts that follow the locked section run as separate calls in any order, where the source makes them one after the other.
- BatteryManager.Battery.Tick: the deletions of swept MicroVMs are started one by one during the sweep, where the source starts them once it has released the lock.
- The conditions, bound time, agent address and readiness of a claim: only phase, Lease, MicroVM, Host, expiry and observed renewal are modelled.
- Waits and backoff of retries, and the slots that bound concurrent ClaimVM calls: a reconcile may begin at any time and may give up before it calls.
- BatteryGains.PopulationBound: leaves out IMMEDIATE_ON_LEASE, for which it is false; BatteryOverfill.OverfillsExactly has the exact condition there.
- The parsing, verification and signing of certificates: a request is a record of its signer, Node and address, and the review's verdict is a choice of the run.
- The writes of the certificate signer, the relayed command and the calls of a reconcile are modelled on values, as moves of a state machine, because others write between them: update in place is not captured there.
- The deletion of a certificate request: requests stay, and a name is used once.
- Csr.NewAddressPins: addresses are taken in canonical form, and the order of Nodes under one address is left open.
- The Inventory Controller, Node reports, configuration and certificate files.
- The Exec Agent's other calls, its token review and its list of claims on a Host.
- EventBus.EventBus.InSequence: for a Pool that is created again the ids start over, and the numbering across the two is not stated; closing a stream is left out.
