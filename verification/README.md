# A verified model of the classic Swarm manager

Classic Swarm turns a set of Docker engines into one: it discovers engines,
caches what runs on them, schedules new containers, and moves containers off
engines that fail. This project models its concurrent core in Dafny and proves
what that core keeps in every interleaving. `dafny verify dfyconfig.toml` checks
all of it.

| part | modules |
|---|---|
| reservation arithmetic, lookup, scheduling views | `Resources`, `Containers`, `Nodes` |
| filters, ranking, selection | `Ports`, `Filters`, `Strategy`, `Scheduling`, `Conditions` |
| placement protocol | `Placement`, `Snapshot`, `Safety`, `Runs`, `ClusterPlacement` |
| its guarantees | `Guarantees`, `CpuBound`, `Names`, `Sample`, `Withdrawal` |
| engine health | `Health` |
| engine membership | `Membership`, `MembershipRuns` |
| container cache against daemon | `Refresh`, `RefreshRuns` |
| build and session rendezvous | `Builds`, `BuildRuns`, `BuildNodes` |
| watchdog | `Rescheduling`, `Duplicates` |
| sequence and map helpers | `Seqs` |

Objects that the program updates in place are classes here
(`ClusterPlacement.Cluster`, `Membership.Cluster`, `Health.Engine`,
`Refresh.Engine`, `Builds.BuildSyncer`, `Duplicates.Watchdog`). Their methods are
proved equal to functions on an abstract value, one function per stretch of code
that runs under a lock; the theorems are about every sequence of such steps. The
refresh runs keep only the container IDs; `RefreshRuns.ListRefines`,
`RefreshRuns.MergeRefines`, `RefreshRuns.CommitRefines`,
`RefreshRuns.LookRefines` and `RefreshRuns.SingleRefines` tie their steps to what
`Refresh` computes.
Loops of the program are loops here. What the daemons, the registry and the
clock answer is an input or a choice of the run.

## Hypotheses

Placement runs (`Runs.IsRun`) allow any number of requests in any interleaving
of: reserve, container reported by its engine, reservation released, container
removed from a cache, health changed. A reservation is not one instant: the
request holds the scheduler lock over a window in which caches go on changing.
It checks its name engine by engine, and reads each engine by a list of its
containers, a sum of memory, a sum of CPUs and its health, each at its own
moment of the window. The runs assume:

- spread or binpack strategy, any list of filters;
- engines of at least one CPU whose specs do not change, and no engine joining or
  leaving. CPU capacity is promised up to 1024 CPUs, and
  `CpuBound.ReportsKeepCpusIff` says why; everything else on any engine;
- requests that ask for no negative amount and carry a Swarm ID of their own,
  which no other container answers to as ID, name or prefix;
- containers enter a cache only through a reservation, while it stands, and the
  daemon echoes the configuration it was given. `Guarantees.UnreservedArrival`
  says exactly when a container that arrives otherwise is harmless;
- requests of less than 2^43 CPUs, for which the float64 conversion is exact
  (`Resources.SharesAreExact`).

`Sample.RunExists` gives a run of two requests in flight at once, with the port
and the slots filter on, that meets all of this.

Capacity is counted in two ways. Of every run it holds for what an engine caches
and what is reserved on it and not reported yet (`Guarantees.CapacityIsSafe`).
Counting every reservation until its release, as the program does, it holds of
runs in which the views of the chosen engines were read in balance
(`Guarantees.PromisesAreSafe`): between the list and the sums of such a reading,
no more is removed from the cache while its reservation stands than is reported.
This is exactly when the sums are not too low (`Runs.ReadingCoversIff`;
`Runs.ReadingErrs` says by how much they err), and it is so whenever nothing of
the kind is removed while the lock is held (`Runs.QuietIsBalanced`).
`Withdrawal.PromisesAreBroken` is a run in which an engine is promised twice what
it has.

The health theorems assume at
least one retry, which the command line enforces (cli/manage.go:255-258). Runs of
the other parts assume:

- membership: one discovery loop, and addresses without `|`;
- refresh: container IDs that a daemon never issues twice, and refreshes of one
  container only for IDs that were issued;
- rendezvous: a cleanup that fires once for each build started. A run ends with
  a panic; the deferred unlock would leave the syncer usable if a handler
  recovered from it, which is not modelled;
- watchdog: new IDs that are new, and nothing but the watchdog touching the
  caches during a pass.

## Where the code and its documentation part

- The comment on health factors says health overpowers resources. It does so
  exactly up to four retries (`Strategy.HealthDominatesIff`).
- `startBuild` looks the session up under the build's ID
  (cluster/swarm/build.go:136). With builds and sessions kept apart every start
  moves its session to the node it asks for (`BuildRuns.StartsMoveTheSession`),
  so a shared session keeps its node exactly if it is asked for again
  (`BuildRuns.SessionStickyIff`, `BuildRuns.SessionsAreNotSticky`).
- The refresh comment calls its list of deleted containers unaffected by races.
  That is right for deletions (`RefreshRuns.OnlyTheDeadAreDropped`). The other
  half of the same commit, and the store that ends the refresh of one container,
  bring a container back exactly if the refresh has merged or fetched it, and it
  was destroyed and forgotten before (`RefreshRuns.RevivesIff`,
  `RefreshRuns.RevivedWasDestroyed`; `RefreshRuns.TheDeadMayReturn` and
  `RefreshRuns.TheDeadMayBeStored` are such runs).
- The name check compares names as written, while daemons keep one leading
  slash. In every run names stay exclusive on the daemons if and only if no
  request is granted a name that one in flight spells with the slash left out or
  put in (`Names.NamesAreExclusiveIff`). The watchdog creates containers under
  their inspected name, with the slash; `Sample.RespelledNameIsGranted` is a run
  in which both spellings are granted, for instance `/web` and `web`
  (`Sample.WebIsRespelled`).
- A removal looks an engine up and deletes it in two critical sections:
  `MembershipRuns.HeldIsSnapshotAndLeaks` says which addresses outlive their
  removal, `MembershipRuns.StaleValidationLeaks` shows one.
- A success is recorded in two critical sections: `Health.SuccessIsNotAtomic`
  says exactly when errors in between leave an engine unhealthy with no failures.

## Model

| member | source | states |
|---|---|---|
| `Guarantees.CapacityIsSafe` | cluster/swarm/cluster.go:253-322 | in every state of every interleaving, what an engine's containers reserve, those cached and those reserved and not reported yet, each counted once, is 0 or under 101 percent of its total, for memory on every engine and for CPUs on engines of at most 1024; told both by the total and by the physical amount and the overcommit ratio |
| `Guarantees.PromisesAreSafe` | cluster/swarm/cluster.go:253-322 | the same counting every reservation until its release, in every run whose chosen engines were read in balance |
| `Runs.ReadingCoversIff` | scheduler/node/node.go:28-43 | a sum of a view covers every reservation until its release if and only if, between the list and that sum, no more is removed from the engine's cache with its reservation standing than is reported there; for memory and for CPUs |
| `Runs.ReadingErrs` | cluster/engine.go:1087-1106 | a sum is too low by exactly what is so removed and too high by what is reported in that time |
| `Runs.QuietIsBalanced` | cluster/swarm/cluster.go:254-303 | a view is read in balance if nothing of the kind is removed from its engine while the lock is held |
| `Withdrawal.PromisesAreBroken` | scheduler/node/node.go:28-43 | a run from an empty engine to one that is promised twice its memory, because a container is removed between the list and the sum |
| `Guarantees.SmallTotalsAreExact` | scheduler/strategy/weighted_node.go:42-66 | on totals of at most 100 units that bound is the total itself |
| `Guarantees.ScoresDoNotOverflow` | scheduler/strategy/weighted_node.go:51-66 | no score of a node listed within its bounds leaves int64 while totals stay within 2^63/202 |
| `Guarantees.ReadingsDoNotOverflow` | scheduler/strategy/weighted_node.go:51-66 | nor, within 2^63/302, of an engine read within its bounds while its cache changes, when containers may be counted twice |
| `CpuBound.ReportsKeepCpusIff` | cluster/engine.go:892 | reports keep the CPU bound of an engine, whatever it holds, if and only if it has at most 1024 CPUs |
| `CpuBound.LargeEnginesOverflow` | cluster/engine.go:1133 | on every larger engine, a run of one report, from a well-formed state within the bound, that breaks it |
| `Guarantees.UnreservedArrival` | cluster/engine.go:1154-1165 | a container cached without a reservation keeps the capacity bound if and only if the engine had room for it |
| `Guarantees.SlotsAreSafe` | scheduler/filter/slots.go:26-47 | with the slots filter on, an engine labelled with a limit never holds more containers than that in any run, counting those in flight |
| `Guarantees.PortsAreExclusive` | scheduler/filter/port.go:48-134 | with the port filter on, no two containers of an engine outside host mode, cached or in flight, ever have conflicting host bindings |
| `Names.NamesAreExclusiveIff` | cluster/swarm/cluster.go:254-319 | although the lock is dropped during creation, over every run of requests with names no two containers, cached or in flight, ever share a name on the daemons if and only if no request is granted a name that one in flight spells with the slash left out or put in |
| `Names.NamesAreExclusive` | cluster/swarm/cluster.go:254-319 | so names without a leading slash are never given twice |
| `Names.NameCheckExactness` | cluster/swarm/cluster.go:914-940 | a name that passes the check is carried by a container, created or on its way, if and only if a request in flight spells it the other way |
| `Names.OneNameIff` | cluster/swarm/cluster.go:914-940 | two different spellings end up as one name on a daemon if and only if one is the other, plain, with a slash in front |
| `Names.RespelledClashes` | cluster/swarm/cluster.go:297-301 | granting a respelled name gives two containers one name |
| `Names.PlainNamesAreNeverRespelled` | cluster/swarm/cluster.go:914-940 | without leading slashes no name is spelled two ways |
| `Sample.RespelledNameIsGranted` | cluster/watchdog.go:145 | a run in which the name with the slash, as the watchdog uses it, and the one without are both granted |
| `Snapshot.SnapshotIsExact` | cluster/swarm/cluster.go:978-994 | the scheduler's view of an engine has every cached and every in-flight container once, and their sums, and the name, labels, images, totals and health of the engine, whatever order the maps are visited in |
| `Snapshot.LookupFindsShown` | cluster/swarm/cluster.go:985-989 | the lookup that guards against counting twice misses exactly the reservations whose container the cache does not show yet |
| `Runs.ReadingsCover` | scheduler/node/node.go:28-43 | however caches change while an engine is read, its view leaves out nothing in the end: in its list, ports and count nothing that the engine holds or was promised, in its sums nothing that is cached or reserved and not reported yet |
| `Runs.ReadingSums` | cluster/engine.go:1087-1106 | a reading shows the reservations unseen when the list was read plus the caches of the moments of its sums |
| `Runs.ReadingShows` | scheduler/node/node.go:28-43 | a reading shows the name, labels, images and totals of the engine as listed, and its health as read last |
| `Runs.NameStaysClear` | cluster/swarm/cluster.go:914-940 | a name found free engine by engine is, when the reservation is made, used only by containers reported since for other requests in flight |
| `Runs.ReservesIsNext` | cluster/swarm/cluster.go:254-303 | a reservation made over a window is a step from the state it ends in |
| `Runs.RunInvariant` | cluster/swarm/cluster.go:253-322 | what every step keeps holds throughout every run |
| `Safety.StepExplained` | cluster/swarm/cluster.go:297-319 | every step changes what an engine holds by at most one container: a report takes the place of its reservation with the same configuration, a release drops it |
| `Safety.ChosenNode` | cluster/swarm/cluster.go:280-291 | the engine a reservation goes to passed every hard condition and has room on a view that left nothing out |
| `Safety.StepKeepsCore` | cluster/swarm/cluster.go:253-322 | reservations stay known, in range and shown at most once, by their own engine |
| `Placement.StandInForeshadows` | cluster/swarm/cluster.go:36-55 | while a container is in flight filters see the labels, engine, configuration up to CPUs and name, if it has no slash, that it will have |
| `Placement.HeldReported` | cluster/engine.go:1154-1165 | a reported container replaces its reservation among the engine's containers |
| `Placement.HeldRemoved` | cluster/engine.go:1169-1187 | a removed container gives its place back to its reservation while that stands |
| `Sample.RunExists` | cluster/swarm/cluster.go:253-322 | two requests granted before either container is reported, with the port and the slots filter on, make a run |
| `Sample.RunIsBalanced` | cluster/swarm/cluster.go:253-322 | and its views are read in balance |
| `Sample.StartIsFine` | cluster/swarm/cluster.go:253-322 | it starts where the theorems on capacity, slots, ports and names start |
| `ClusterPlacement.Cluster.CheckNameUniqueness` | cluster/swarm/cluster.go:914-940 | answers whether the name is free in all caches and all reservations; the empty name always is |
| `ClusterPlacement.Cluster.ListNodes` | cluster/swarm/cluster.go:978-994 | returns one view per engine, a possible listing of the current state |
| `ClusterPlacement.Cluster.Select` | cluster/swarm/cluster.go:280 | returns a possible selection from a possible listing of the current state |
| `ClusterPlacement.Cluster.Reserve` | cluster/swarm/cluster.go:254-303 | takes a reserve step of the protocol, or changes nothing and has a reason: the name or the selection |
| `ClusterPlacement.Cluster.ReleasePending` | cluster/swarm/cluster.go:317-319 | takes a release step; an unknown reservation changes nothing |
| `Resources.TotalRange` | cluster/engine.go:1109-1116 | an overcommit above -100 percent keeps totals from going negative or vanishing, and one of at least 0 takes nothing away |
| `Resources.TotalIsOvercommitted` | cluster/engine.go:1109-1116 | the total is the physical amount times 100 percent plus the ratio, rounded down to the unit, or up where the ratio lowers it |
| `Nodes.EngineTotals` | cluster/engine.go:1109-1116 | the same of an engine's memory and CPUs |
| `Resources.AdmissionIsPhysical` | scheduler/strategy/weighted_node.go:42-64 | whatever stays within the overcommitted physical amount is admitted, and nothing that exceeds it by a hundredth or more |
| `Resources.AdmitsIff` | scheduler/strategy/weighted_node.go:42-64 | the truncated percentage test is the exact bound 100(used+request) < 101 total |
| `Resources.AdmissionKeepsCapacity` | scheduler/strategy/weighted_node.go:42-64 | an admitted request keeps the capacity bound, for zero and non-zero requests mixed |
| `Resources.AdmissionExactIff` | scheduler/strategy/weighted_node.go:42-64 | admission never exceeds the total if and only if the total is at most 100 |
| `Resources.ScoreDoesNotOverflow` | scheduler/strategy/weighted_node.go:51-58 | the intermediate products fit int64 |
| `Resources.CpuShareRoundTrip` | cluster/engine.go:1133 | CPUs sent as shares and read back are the CPUs requested, on 1 to 1024 CPUs |
| `Resources.CpuShareRoundTripIff` | cluster/engine.go:892 | the round trip is exact for every request if and only if the engine has at most 1024 CPUs |
| `Resources.CachedNeverUnderReports` | cluster/engine.go:892 | on any engine the cache never shows less than was requested |
| `Resources.FloatCeilIsExact` | cluster/engine.go:1133 | below 2^53 the ceiling of the float64 quotient is the exact ceiling |
| `Resources.SharesAreExact` | cluster/engine.go:1133 | so requests of less than 2^43 CPUs are sent as the exact share |
| `Resources.RoundTripGrows` | cluster/engine.go:892 | on every engine of more than 1024 CPUs some request of at most 1024 comes back larger |
| `Containers.Get` | cluster/container.go:105-165 | the five loops return what the tiered lookup prescribes |
| `Containers.LookupOrderIndependentIff` | cluster/container.go:105-165 | the answer is the same for every order of the list if and only if the deciding ID tier has no two different hits |
| `Containers.LookupPermuted` | cluster/container.go:105-165 | unambiguous keys give one answer on all permutations |
| `Containers.DistinctKeysAreUnambiguous` | cluster/container.go:111-126 | one hit per ID tier is enough for that |
| `Containers.LookupHit` | cluster/container.go:105-165 | a hit is listed, and comes from the first tier that has one: a full or twelve-character ID, the same of a Swarm ID, a name with or without slash or engine, a prefix |
| `Containers.LookupMissIff` | cluster/container.go:105-165 | no answer if and only if the key is empty, nothing matches, or the deciding name or prefix tier has several hits |
| `Containers.LookupBySwarmID` | cluster/swarm/cluster.go:985-989 | without collisions a Swarm ID is found if and only if a container with it is listed |
| `Nodes.Used` | cluster/engine.go:1087-1106 | the loop adds up the reservations of the cache in every visiting order |
| `Nodes.NewNode` | scheduler/node/node.go:28-43 | the view shows the containers, sums, specs and health found by its separate reads of the engine |
| `Nodes.AddContainer` | scheduler/node/node.go:56-68 | succeeds if and only if the container fits the node by itself, and then adds it and its amounts once and changes nothing else |
| `Nodes.AtoiReadsDecimal` | scheduler/filter/slots.go:32 | a limit written in decimal is read back as that number, throughout int64 |
| `Ports.ConflictIsSymmetric` | scheduler/filter/port.go:113-134 | the comparison of two bindings does not depend on who asks |
| `Ports.ClashIsSymmetric` | scheduler/filter/port.go:113-134 | nor does that of two port maps |
| `Ports.Compare` | scheduler/filter/port.go:113-134 | finds whether some binding of the map conflicts with the one requested |
| `Ports.PortAlreadyInUse` | scheduler/filter/port.go:79-111 | finds whether some container of the node, created or in flight, occupies the binding |
| `Ports.PortAlreadyExposed` | scheduler/filter/port.go:66-77 | finds whether some host-mode container of the node exposes the port |
| `Ports.FilterBridge` | scheduler/filter/port.go:48-64 | keeps, in order, the nodes free of all requested bindings, or fails when a binding leaves none |
| `Ports.FilterHost` | scheduler/filter/port.go:32-46 | the same for exposed ports in host mode |
| `Filters.Match` | scheduler/filter/expr.go:76-110 | a pattern that matches some subject makes == hold and != fail, one that matches none the opposite |
| `Filters.SplitJoins` | scheduler/filter/whitelist.go:37 | the alternatives of a whitelist are the pieces between its bars |
| `Filters.AffinityHolds` | scheduler/filter/affinity.go:36-71 | an affinity is matched against the containers, images or labels its key names |
| `Filters.ExprHolds` | scheduler/filter/constraint.go:34-46 | one expression against one node, for affinities, constraints and whitelists |
| `Filters.FilterExprs` | scheduler/filter/affinity.go:22-78 | keeps, in order, the nodes on which every expression in force holds; fails when there are expressions in force and no such node |
| `Filters.FilterHealth` | scheduler/filter/health.go:25-38 | keeps the healthy nodes, fails on none |
| `Filters.FilterSlots` | scheduler/filter/slots.go:26-47 | keeps the nodes with a free slot or no readable limit, fails on none |
| `Filters.Check` | scheduler/filter/dependency.go:81-88 | whether the node has every container depended upon |
| `Filters.FilterDependency` | scheduler/filter/dependency.go:21-57 | keeps the nodes that have every volume, link and network dependency; fails when nodes were given and none is left |
| `Filters.RunFilter` | scheduler/filter/filter.go:63-80 | every filter keeps, in order, the nodes that satisfy one predicate of the node alone |
| `Filters.ApplyFilters` | scheduler/filter/filter.go:63-80 | the loop applies the filters one after the other and stops at the first error |
| `Filters.StageIsConjunction` | scheduler/scheduler.go:45-53 | filtering yields exactly the nodes that meet all filters, in order, and fails if and only if there is none or the request cannot be parsed |
| `Filters.FilterOrderIrrelevant` | scheduler/filter/filter.go:63-80 | any permutation of the filters succeeds or fails alike and yields the same nodes |
| `Filters.SoftImpliesHard` | scheduler/filter/affinity.go:28-31 | what meets the soft expressions too meets the hard ones |
| `Strategy.WeighNodes` | scheduler/strategy/weighted_node.go:39-73 | weighs, in order, exactly the nodes that fit, without dividing by zero, and fails if and only if none fits |
| `Strategy.Sort` | scheduler/strategy/weighted_node.go:18-37 | sorts the list in place by weight and then container count, ascending for spread and descending for binpack, losing nothing |
| `Strategy.RankAndSort` | scheduler/strategy/spread.go:25-40 | returns a ranking of exactly the nodes that fit, or fails if there are none |
| `Strategy.RankedHead` | scheduler/strategy/binpack.go:25-40 | no node that fits is strictly ahead of the first of a ranking |
| `Strategy.AheadIff` | scheduler/strategy/weighted_node.go:18-66 | of two nodes that fit, spread puts the one ahead with the smaller sum of truncated CPU and memory percentages less ten times its health, binpack the one with the larger sum plus that; ties go to fewer, and to more, containers |
| `Strategy.EmptierIsRanked` | scheduler/strategy/weighted_node.go:18-66 | so in every ranking, of two equally healthy nodes that differ in memory, in CPUs or in their number of containers, the emptier comes first under spread and last under binpack |
| `Strategy.HealthDominatesIff` | scheduler/strategy/weighted_node.go:51-66 | fewer recent failures rank strictly ahead whatever the load, under both strategies, if and only if at most 4 retries are configured |
| `Strategy.HealthLosesToLoad` | scheduler/strategy/spread.go:26-34 | from 5 retries on, a node without failures that the request fills up is not ahead of an empty one with one failure |
| `Scheduling.SelectNodesForContainer` | scheduler/scheduler.go:36-43 | a soft attempt decides if it succeeds, a hard one otherwise |
| `Scheduling.SelectOnce` | scheduler/scheduler.go:45-56 | one attempt: filter, refuse the empty result, rank |
| `Scheduling.SelectionIsComplete` | scheduler/scheduler.go:36-56 | selection fails if and only if no node meets the hard conditions and fits; it returns exactly the nodes that also meet the soft ones if there are any, else exactly the hard-feasible ones, in ranking order |
| `Conditions.SelectionIsExact` | scheduler/scheduler.go:36-56 | told by the fields of request and node: a request is refused if and only if its expressions cannot be parsed or it suits no node, and otherwise each suitable node is returned as often as it was listed, those that suit its soft expressions too if there are any |
| `Conditions.HoldsIff` | scheduler/filter/affinity.go:36-71 | an expression holds if and only if some container ID, first name without slash, image, label, node ID or node name that its key refers to matches, for ==, or none does, for !=; a whitelist if it spells the node's name between bars |
| `Conditions.ConstraintIsMet` | scheduler/filter/constraint.go:21-54 | every node selected meets a hard constraint: its label, or its ID or name, matches for == and does not for != |
| `Conditions.AffinityIsMet` | scheduler/filter/affinity.go:22-78 | every node selected has a container that matches a hard affinity by ID or first name, and none with a hard anti-affinity |
| `Conditions.BridgeIff` | scheduler/filter/port.go:48-134 | a node is free for a request if and only if no binding shown on it has a requested host port on a common interface |
| `Conditions.HostIff` | scheduler/filter/port.go:32-77 | in host mode, if and only if no host-mode container on it exposes one of its ports |
| `Conditions.AtoiIff` | scheduler/filter/slots.go:32 | a label is read as a limit if and only if it is a decimal form of that number and int64 holds it |
| `Conditions.SlotIff` | scheduler/filter/slots.go:26-47 | a node has a slot if and only if its label is no such number or a larger one than its containers count |
| `Conditions.DependencyIff` | scheduler/filter/dependency.go:21-57 | a node meets the dependencies if and only if it knows the container before the colon of each volume and link entry, and the one whose network is shared |
| `Scheduling.MalformedIsRefused` | scheduler/filter/affinity.go:23-26 | a request that cannot be parsed is refused on every cluster |
| `Scheduling.SelectionIgnoresFilterOrder` | scheduler/scheduler.go:36-56 | the possible selections do not depend on the order of the filter list |
| `Scheduling.ChosenIsFeasible` | cluster/swarm/cluster.go:280-291 | the node taken was listed, meets the hard conditions, has room, and nothing that meets all conditions is ahead of it |
| `Health.Indicator` | cluster/engine.go:312-319 | lies in 0 to 100, is positive if and only if the engine is healthy with fewer failures than retries, and is 100 without failures |
| `Health.Engine.HealthIndicator` | cluster/engine.go:312-319 | reads that degree of health |
| `Health.Engine.ValidationComplete` | cluster/engine.go:349-358 | turns a pending engine healthy with no failures, and no other |
| `Health.Engine.IncrementFailures` | cluster/engine.go:388-397 | counts a failure; the one that reaches the limit turns a healthy engine unhealthy and emits a disconnect |
| `Health.Engine.CheckConnectionErr` | cluster/engine.go:420-456 | a success revives and clears, a connection error counts, any other error changes nothing |
| `Health.Engine.Disconnect` | cluster/engine.go:267-286 | emits one disconnect unless already disconnected, and keeps the failure count |
| `Health.ValidatedHealthFollowsHistory` | cluster/engine.go:349-456 | after any sequence of outcomes a validated engine is unhealthy if and only if the connection errors since the last success number at least the retries, and disconnects and reconnects alternate starting with a disconnect |
| `Health.HealthFollowsHistory` | cluster/engine.go:388-456 | the same from any healthy engine, with the count itself |
| `Health.OnlyValidationRevives` | cluster/engine.go:349-456 | before its validation, and once disconnected, an engine counts errors but no sequence of outcomes changes its state or emits an event |
| `Health.SuccessIsNotAtomic` | cluster/engine.go:420-456 | errors between the two critical sections of a success leave the engine unhealthy with a count of 0 if and only if they reach the limit on top of the old count |
| `Health.UnhealthyWithoutFailures` | cluster/engine.go:420-456 | one such error is enough after an outage |
| `Health.HealthGapIff` | cluster/engine.go:312-319 | engines with different failure counts differ by more than 20 degrees if and only if at most 4 retries are configured |
| `Membership.IdTellsAddress` | cluster/engine.go:519-527 | an engine ID, joined from the daemon's ID and the address, determines the address |
| `Membership.IdIsFree` | cluster/swarm/cluster.go:418-440 | a pending engine finds its ID free |
| `Membership.LearnKeeps` | cluster/engine.go:519-527 | connecting an engine changes no held address, and succeeds if and only if its ID is then the daemon's |
| `Membership.PendKeeps` | cluster/swarm/cluster.go:391-394 | adding an address that nobody holds adds just that one |
| `Membership.PromoteKeeps` | cluster/swarm/cluster.go:415-448 | validating an engine keeps the held addresses and shares none; it registers a pending one under its ID and leaves any other alone |
| `Membership.DropKeeps` | cluster/swarm/cluster.go:459-466 | a removal frees its address if and only if the address is still pending or the ID found is registered, and no other |
| `Membership.Cluster.GetEngineByAddr` | cluster/swarm/cluster.go:357-370 | finds an engine with the address, or nobody holds it |
| `Membership.Cluster.Connect` | cluster/engine.go:519-527 | sets the ID the first time and refuses another one later |
| `Membership.Cluster.ValidatePendingEngine` | cluster/swarm/cluster.go:415-449 | the critical section of a validation, all four outcomes |
| `Membership.Cluster.AddEngine` | cluster/swarm/cluster.go:376-403 | undisturbed, refuses a held address and holds any other from then on, sharing none |
| `Membership.Cluster.RemoveEngine` | cluster/swarm/cluster.go:452-469 | undisturbed, frees exactly the given address and reports whether it was held |
| `Membership.Diff` | vendor/github.com/docker/docker/pkg/discovery/entry.go:58-74 | both set differences, in order |
| `Membership.Cluster.Follow` | cluster/swarm/cluster.go:472-497 | undisturbed, an update frees the addresses that left the snapshot, holds those that joined it, and touches no other |
| `MembershipRuns.AddressesAreHeldOnce` | cluster/swarm/cluster.go:357-497 | in every interleaving no two engines of the two maps together have the same address |
| `MembershipRuns.IdsAreForGood` | cluster/engine.go:519-527 | in no run does an engine change its address, or its ID once it has one |
| `MembershipRuns.IdsNeverClash` | cluster/swarm/cluster.go:418-440 | both branches for a duplicate ID are unreachable |
| `MembershipRuns.HeldIsSnapshotAndLeaks` | cluster/swarm/cluster.go:452-497 | once an update is carried out, the held addresses are exactly the last snapshot and the addresses whose last removal missed |
| `MembershipRuns.HeldFollowsDiscovery` | cluster/swarm/cluster.go:472-497 | if no validation of a removed engine object completes, they are exactly the last snapshot |
| `MembershipRuns.StaleValidationLeaks` | cluster/swarm/cluster.go:406-469 | a run in which such a validation makes an address outlive its removal |
| `Refresh.Updated` | cluster/engine.go:849-912 | there is no new entry if and only if an inspection was needed and failed; it has the listed summary, and the inspected details if it was asked for, new or last seen restarting, else the known ones |
| `Refresh.MissingIDs` | cluster/engine.go:766-775 | the cached IDs that the list does not mention |
| `Refresh.Merge` | cluster/engine.go:777-796 | new entries for exactly the listed containers that could be updated |
| `Refresh.Engine.Commit` | cluster/engine.go:798-807 | drops the missing, then stores the merged |
| `Refresh.Engine.RefreshContainers` | cluster/engine.go:744-809 | alone, gives listed containers the listed summary with the details known or, where needed, inspected, keeps the old entry where that failed, and keeps nothing unlisted |
| `Refresh.Engine.RefreshContainer` | cluster/engine.go:813-847 | alone, drops the ID if nothing is listed for it, renews a single hit likewise and nothing else, and falls back on a full pass for several |
| `Refresh.AloneIsExact` | cluster/engine.go:744-809 | with every inspection succeeding it leaves exactly the listed IDs |
| `RefreshRuns.OnlyTheDeadAreDropped` | cluster/engine.go:764-807 | in every interleaving, whatever a refresh, a single refresh or a removal takes out of the cache is gone from the daemon, then and ever after |
| `RefreshRuns.TheLivingStayCached` | cluster/engine.go:744-847 | a cached container stays cached as long as it lives, unless the watchdog takes it |
| `RefreshRuns.LaterArrivalsSurvive` | cluster/engine.go:749-807 | what was not cached at a refresh's snapshot and is cached at its commit survives the commit |
| `RefreshRuns.AloneIsExact` | cluster/engine.go:744-809 | a refresh that runs alone without failures leaves exactly the live containers |
| `RefreshRuns.RevivesIff` | cluster/engine.go:777-909 | in every run, a step that is not the watchdog's brings a container into the cache that is gone from the daemon if and only if it is gone, was forgotten, and the step ends a refresh that had merged it or a single refresh that had fetched it |
| `RefreshRuns.RevivedWasDestroyed` | cluster/engine.go:777-909 | a container brought back was destroyed while that refresh was under way |
| `RefreshRuns.TheDeadMayReturn` | cluster/engine.go:777-807 | a run in which a commit does that |
| `RefreshRuns.TheDeadMayBeStored` | cluster/engine.go:841-909 | a run in which a single refresh does |
| `RefreshRuns.LookRefines` | cluster/engine.go:813-840 | none, one or several containers listed for an ID lead to its removal, its update or a full pass |
| `RefreshRuns.CommitRefines` | cluster/engine.go:798-807 | the commit of the runs is the commit of the cache, on its IDs |
| `Builds.BuildSyncer.WaitBuildEnter` | cluster/swarm/build.go:77-109 | returns a known node, or counts the waiter on the build's one channel |
| `Builds.BuildSyncer.WaitBuildExit` | cluster/swarm/build.go:101-120 | returns the node unless timed out or cleaned up, and drops the entry with its last waiter |
| `Builds.BuildSyncer.WaitSessionEnter` | cluster/swarm/build.go:39-63 | returns a known node, refuses a second waiter, or parks |
| `Builds.BuildSyncer.WaitSessionExit` | cluster/swarm/build.go:57-74 | returns the node unless timed out or cleaned up, and drops the entry |
| `Builds.BuildSyncer.Start` | cluster/swarm/build.go:127-154 | records the node and wakes the waiters of build and session, or refuses a running build; closing a closed channel is a panic |
| `Builds.BuildSyncer.Clean` | cluster/swarm/build.go:156-161 | forgets build and session |
| `BuildRuns.StepKeeps` | cluster/swarm/build.go:39-163 | every step of every routine keeps the invariant of queues, counts, channels and cleanups |
| `BuildRuns.RendezvousHolds` | cluster/swarm/build.go:77-163 | in every reachable state a build has a queue entry if and only if somebody waits for it, its count is the number waiting, and none waits on an open channel once the build has a node |
| `BuildNodes.GotIff` | cluster/swarm/build.go:77-120 | in every run a routine comes back with a node if and only if it asks, coming in or woken and not timed out, while the build runs on that node: after the start that returned it and before its cleanup |
| `BuildNodes.WaitersGetTheStartedNode` | cluster/swarm/build.go:77-163 | so whoever asks for a build between a successful start and its cleanup gets the node that start returned |
| `BuildNodes.JoinParksIff` | cluster/swarm/build.go:77-101 | a routine is parked if and only if the build does not run |
| `BuildNodes.GotSessionIff` | cluster/swarm/build.go:39-74 | the same of sessions, whose node is that of the last start that recorded one, until a build of the session is cleaned up |
| `BuildNodes.SessionOnIff` | cluster/swarm/build.go:127-163 | a session has a node if and only if such a start gave it that node |
| `BuildNodes.JoinSessionParksIff` | cluster/swarm/build.go:39-63 | a routine is parked if and only if the session has no node and nobody waits for it, and turned away if and only if somebody does |
| `BuildNodes.RefusedIff` | cluster/swarm/build.go:127-134 | a start is refused if and only if its build runs |
| `BuildNodes.StartReturns` | cluster/swarm/build.go:136-143 | one that succeeds returns the node it was asked for, or that of the session that bears the build's ID |
| `BuildRuns.OneWaiterPerSession` | cluster/swarm/build.go:39-63 | a session never has two waiters |
| `BuildRuns.StartPanicsIff` | cluster/swarm/build.go:145-152 | in a reachable state a start closes a closed channel if and only if the build has no node and was cleaned up under a waiter and waited for ever since, or the session's woken waiter has not left |
| `BuildRuns.OrphanedIff` | cluster/swarm/build.go:77-163 | a build's channel is left closed behind if and only if a cleanup fired under a waiter, and the build has been waited for ever since |
| `BuildRuns.BuildChannelClosesOnce` | cluster/swarm/build.go:145-162 | a build's channel is never closed twice if no cleanup of that build fires while somebody waits for it |
| `BuildRuns.SignalledIff` | cluster/swarm/build.go:39-75 | a session's channel has been closed under its waiter if and only if the session was started while a routine waited that has not left since |
| `BuildRuns.SessionChannelClosesOnce` | cluster/swarm/build.go:150-152 | a session's channel is never closed twice if the session is not started again before the routine woken by an earlier start leaves |
| `BuildRuns.ChannelsCloseOnce` | cluster/swarm/build.go:127-163 | under both provisos no run panics |
| `BuildRuns.CleanupUnderAWaiterPanics` | cluster/swarm/build.go:147-160 | a run that panics without the first proviso |
| `BuildRuns.RestartedSessionPanics` | cluster/swarm/build.go:150-152 | a run that panics without the second, with the first |
| `BuildRuns.StartsMoveTheSession` | cluster/swarm/build.go:136-143 | if no session shares its ID with a build, every start that succeeds in any run returns the node it was asked for and moves its session there |
| `BuildRuns.SessionStickyIff` | cluster/swarm/build.go:136-143 | in such a run a start leaves its session where it was if and only if it asks for that node |
| `BuildRuns.SessionsAreNotSticky` | cluster/swarm/build.go:136-143 | two builds of one session on two nodes |
| `Rescheduling.PassCounts` | cluster/watchdog.go:62-173 | for every pattern of failures, the exact change of the number of copies of each SwarmID |
| `Rescheduling.ReschedulingConserves` | cluster/watchdog.go:62-173 | if every container to be moved has a name and a SwarmID, a pass leaves the multiset of SwarmIDs in the caches unchanged for every pattern of failures |
| `Rescheduling.ReschedulingConservesIff` | cluster/watchdog.go:62-173 | and only if |
| `Rescheduling.EachIsMovedOrBack` | cluster/watchdog.go:62-173 | each container to be moved ends as one new copy on its target or back on its old engine, unchanged but for a SwarmID it lacked; one without a name is gone, and one not to be moved stays |
| `Rescheduling.Untouched` | cluster/watchdog.go:62-173 | containers of other engines are as before |
| `Rescheduling.NewcomersAreCopies` | cluster/watchdog.go:145-151 | everything new in a cache is the copy of a container that was to be moved |
| `Duplicates.Watchdog.RescheduleContainers` | cluster/watchdog.go:62-173 | the loop is one such pass, in the order the containers come up |
| `Duplicates.Watchdog.RemoveDuplicateContainers` | cluster/watchdog.go:35-59 | the nested loops are one duplicate pass; if every removal succeeds, every duplicate is removable |
| `Duplicates.Watchdog.RemoveTwins` | cluster/watchdog.go:49-57 | a container is removed only if a registered engine with another ID has its SwarmID, and always if the removals succeed |
| `Duplicates.DedupeDrops` | cluster/watchdog.go:35-59 | a duplicate pass takes exactly the removable duplicates out of the engine's cache |
| `Duplicates.NoTwinsAreLeft` | cluster/watchdog.go:35-59 | after a pass whose removals succeed no SwarmID of the engine is on another registered engine |
| `Duplicates.NoSwarmIDIsLost` | cluster/watchdog.go:35-173 | over any sequence of passes of both kinds every SwarmID present stays present, if containers to be rescheduled have names |
| `Duplicates.KeptIff` | cluster/watchdog.go:80-91 | rescheduling an engine keeps a SwarmID if and only if not all its containers are nameless ones to be moved off that engine |
| `Duplicates.TheNamelessAreLost` | cluster/watchdog.go:80-91 | a nameless container is taken out of its cache and not put back |

## Left out

- HTTP handlers, routing, TLS, hijacking, CLI, leader election, discovery
  backends: plumbing over foreign libraries.
- Images, volumes, networks, container start, exec and rename: they would add
  easier members; a rename takes no scheduler lock and stays outside the name
  theorem.
- Random placement: it ignores resources, so the capacity theorem does not cover
  it.
- Regular expressions, glob patterns, JSON labels, expression parsing and IP
  parsing: whether a pattern matches and whether an address means every
  interface are parameters, and a label list is either parsed or malformed.
- Expressions without a value, on which matching would index an empty text.
- Host-mode port exclusivity: in-flight containers carry no host settings, so
  the guarantee is stated for containers outside host mode.
- Guarantees.CapacityIsSafe: for CPUs on engines of more than 1024 it promises
  nothing, because reports break the bound there (`CpuBound.ReportsKeepCpusIff`).
- Guarantees.PromisesAreSafe: assumes views read in balance, because a container
  removed while its engine is read breaks the bound otherwise
  (`Withdrawal.PromisesAreBroken`).
- Engines joining, leaving or changing their specs during a placement run.
- Generation of Swarm IDs, the rewriting of local networks and image affinities
  into constraints, and the retries of CreateContainer: a reserve step takes the
  configuration as it is scheduled.
- Nil configurations, error texts, logging, real time, timers and back-off: a
  timeout or a cleanup is a step that may happen at any moment.
- Refresh.Engine.RefreshContainers: containers are values; that the program
  updates a known container object before the commit is not modelled.
- Refresh.Engine.RefreshContainer: the two list requests it may make are inputs.
- Membership.Cluster.AddEngine: creation of the engine object is atomic with its
  registration; the event handler and the validation it starts are not part of
  the method, validations are steps of the runs.
- Duplicates.Watchdog.RescheduleContainers: networks are not disconnected,
  rewritten or reattached, and containers are not started.
- Duplicates.Watchdog.RemoveDuplicateContainers: the refresh before the pass is
  not part of it.
- Strategy.Sort: an insertion sort stands for the library's sort; ties may end
  up in any order.
