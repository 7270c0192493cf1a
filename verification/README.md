# JACO control plane: a Dafny model

JACO runs a raft-replicated state machine with reconcilers around it: typed stores whose
watch brokers feed bounded queues, a command log with cascades and snapshots, a scheduler
that places replicas, an ACME controller that stages certificates before asking the
production CA, an address allocator whose blocks feed a packet filter, and a builder and
reloader for the ingress configuration. This project models that logic and proves what
holds over every input, every log and every interleaving.

`dafny verify dfyconfig.toml` checks the whole project.

## How the model is laid out

| file | what it holds |
|---|---|
| `Prelude`, `Text`, `Sorting` | maps listed in arbitrary order, Go's string operations, sorts of which callers learn only that the result is a sorted permutation |
| `Watch`, `WatchProtocol` | stores and brokers as classes; the same protocol as a state machine that interleaves writer, publisher and subscribers |
| `Entities`, `Fsm`, `Machine` | entities and keys; one function per command; the machine as a class whose methods loop over store listings |
| `Recovery`, `Cascades`, `Leases` | snapshot and replay, replace-sets and deletions, certificate locks over whole logs |
| `Placement`, `Scheduler`, `SchedulerRuns` | eligible hosts, one reconcile pass, repeated passes |
| `Backoff`, `StageFirst`, `StageFirstRuns`, `StagingWindow` | wrapping 64-bit backoff, the controller as a class, its runs, what each node renders as staging |
| `Cidr`, `Ipam`, `Firewall`, `Isolation` | dotted quads, the allocator, the rendered forward chain, the two together |
| `CaddyConfig`, `CaddyOrder`, `IngressBuilder`, `CaddyDispatch`, `CaddyServing` | the builder, its independence of input order, its inputs from replicated state, longest-prefix dispatch, what the two servers answer |
| `Reload`, `AuditFollow` | the cached configuration and the loader; the audit follow stream |

Go ranges over maps in unspecified order and `sort.Slice` is not stable. Every listing is
therefore any listing, and every sort any sorted permutation; determinism is proved, not
assumed. Strings are sequences of bytes.

## Findings

Where a property the code or its comments suggest does not hold, the model keeps the code
and states the exact condition.

- `Restore` is documented as replacing the entire state. It merges. It replaces exactly when
  the machine holds nothing the snapshot lacks (`Recovery.RestoreReplacesIffCovered`);
  otherwise removed entries come back (`Recovery.RestoreResurrects`), and a two-command log
  reaches such a case (`Recovery.NodeCanBeResurrected`).
- `CertUnlock` does not look at the lessee. Tenures are disjoint as long as nobody unlocks
  another node's running lease, and any such unlock lets two tenures overlap
  (`Leases.ForeignUnlockOverlaps`).
- `BuildCaddyConfig` calls its output deterministic. It is, exactly when no domain has
  tls:auto routes with two different contacts (`CaddyOrder.ConfigIgnoresOrder`,
  `CaddyOrder.ContactClashShows`).
- Longest-prefix-first is promised for all paths. A glob such as `/api/*` sorts before the
  equally long and more specific `/api/x`, and takes its requests. Dispatch is by longest
  prefix for every request exactly when no plain path is shadowed in this way
  (`CaddyDispatch.LongestIffUnshadowed`). Globs that do not end in a slash also strip in
  the middle of a segment (`CaddyDispatch.StripOnSegmentIff`).
- Audit follow mode deduplicates by raft index, and a batch appends several events at one
  index (`AuditFollow.BatchSharesIndex`): all but the first are dropped once following. An
  overflow can make the follower skip positions for good, as three events through a channel
  of two show (`AuditFollow.OverflowLoses`). In every run the stream is exact if and only if
  every matching event was looked at and has a greater index than the one looked at before
  (`AuditFollow.FollowExactIff`). Positions are skipped if and only if a receive finds the
  queue exposed (`AuditFollow.GaplessIff`), and an overflow exposes it if and only if the
  second item is an event beyond what the follower will have seen (`AuditFollow.ExposedIff`);
  what it drops may be a Resync (`AuditFollow.ResyncDropExposes`). Exposure alone is not a loss: a further overflow can bring the
  Resync to the front (`AuditFollow.SecondOverflowRescues`).
- `SetName` sanitises and is not injective, so two scopes can share a set
  (`Firewall.SetNameCollides`). Isolation is stated in terms of set names.
- A comment says that no plan drives a pass when `driveRollout` returns -1. The code then
  applies the one-at-a-time gate; the model does the same.
- A comment says `isRollingImageChange` returns false once a replica runs the new image. It
  returns true, which keeps the one-at-a-time gate closed until the rollout ends.
- A comment says GLOBAL services never reach `stickyExistingHost`. They do.

## Model

| member | source | states |
|---|---|---|
| Watch.Broker.constructor | internal/controlplane/watch/broker.go:84-92 | a broker starts without subscribers and its buffer is positive, 256 when none is asked for |
| Watch.Broker.Subscribe | internal/controlplane/watch/broker.go:96-103 | the new subscription is empty, open and added to the others |
| Watch.Broker.Cancel | internal/controlplane/watch/broker.go:104-122 | the subscription leaves the set and is closed once; a second cancel changes nothing |
| Watch.Broker.Publish | internal/controlplane/watch/broker.go:130-162 | every subscriber's queue is what `Offer` says and never exceeds the buffer |
| Watch.Offer | internal/controlplane/watch/broker.go:137-152 | an offer loses nothing or leaves the queue ending in a Resync |
| Watch.Store.constructor | internal/controlplane/state/store.go:27-33 | a store starts empty |
| Watch.Store.Get | internal/controlplane/state/store.go:36-45 | a lookup finds exactly what is stored |
| Watch.Store.Apply | internal/controlplane/state/store.go:67-87 | the value is stored under its own key, the store stays filed, and every subscriber is offered Added or Updated with the previous value |
| Watch.Store.Remove | internal/controlplane/state/store.go:90-104 | the key is gone and Removed is offered exactly when it was there |
| WatchProtocol.StepKeepsInv | internal/controlplane/watch/broker.go:130-162 | every step of writer, publisher or subscriber keeps the invariant that handling what is still due turns each view into the store |
| WatchProtocol.RunKeepsInv | internal/controlplane/watch/broker.go:130-162 | the invariant holds after every legal interleaving |
| WatchProtocol.SubscribersConverge | internal/controlplane/watch/broker.go:130-162 | in every interleaving, however many overflows, no queue exceeds the buffer and a subscriber with an empty queue and an idle writer has exactly the store |
| WatchProtocol.AdvancesRefineOffer | internal/controlplane/watch/broker.go:137-152 | the three channel operations of a publish, uninterrupted, are the atomic `Offer` |
| Prelude.RemoveWhere | internal/controlplane/fsm/fsm.go:125-130 | list-then-remove drops exactly the selected entries whatever order the listing has |
| Prelude.UpsertListing | internal/controlplane/fsm/snapshot.go:62-117 | re-applying any listing of a store overlays that store |
| Sorting.ListingsPermute | internal/controlplane/state/store.go:48-57 | two listings of one store are permutations of each other |
| Fsm.Applied | internal/controlplane/fsm/fsm.go:51-540 | every command, batches included, keeps every entry filed under its own key |
| Fsm.Mutated | internal/controlplane/fsm/fsm.go:76-585 | only lock commands touch locks, only SubnetAllocate adds subnets, only AuditAppend carries an event |
| Machine.Machine.constructor | internal/controlplane/fsm/fsm.go:44-46 | a machine starts from the empty state |
| Machine.Machine.RemoveNode | internal/controlplane/fsm/fsm.go:121-133 | the node and its subnets go, and nothing else, whatever order the store lists |
| Machine.Machine.ApplyDeployment | internal/controlplane/fsm/fsm.go:178-245 | the loops over three listings compute the specified replace-set |
| Machine.Machine.DeleteDeployment | internal/controlplane/fsm/fsm.go:266-297 | the loops over five listings compute the specified deletion |
| Machine.RemoveReplicasOf | internal/controlplane/fsm/fsm.go:278-282 | desired, observed and restart records of exactly the deployment's replicas go |
| Machine.Machine.RemoveDomain | internal/controlplane/fsm/fsm.go:374-384 | every route of the domain goes, on any path |
| Machine.Machine.FreeSubnets | internal/controlplane/fsm/fsm.go:455-476 | a full triple frees one subnet, a partial one frees every match |
| Machine.Machine.ApplyCascade | internal/controlplane/fsm/fsm.go:76-297 | the looping commands compute their specification |
| Machine.Machine.Apply | internal/controlplane/fsm/fsm.go:58-73 | applying a decoded command computes `Applied`, whatever order the cascades list in |
| Machine.Machine.ApplyEntry | internal/controlplane/fsm/fsm.go:51-73 | a log entry is applied at its index; bytes that do not decode change nothing |
| Machine.Machine.ApplyBatch | internal/controlplane/fsm/fsm.go:529-540 | children are applied in order at the batch's own index |
| Machine.Machine.TakeSnapshot | internal/controlplane/fsm/snapshot.go:15-43 | the snapshot lists every store, in any order |
| Machine.Machine.Restore | internal/controlplane/fsm/snapshot.go:49-120 | the restore loops compute `Restored` of the old state |
| Machine.AppliedAllConcat | internal/controlplane/fsm/fsm.go:529-540 | two batches in sequence are one |
| Recovery.RestoreOverlays | internal/controlplane/fsm/snapshot.go:49-120 | restoring any snapshot of one state over another overlays it store by store, independent of listing order |
| Recovery.RestoreReplacesIffCovered | internal/controlplane/fsm/snapshot.go:45-120 | restore replaces the state if and only if the machine held nothing the snapshot lacks |
| Recovery.RestoreResurrects | internal/controlplane/fsm/snapshot.go:45-120 | every node removed between a machine's own log and a later snapshot comes back when the machine restores that snapshot, and the snapshot's audit events are appended to its own |
| Recovery.NodeCanBeResurrected | internal/controlplane/fsm/fsm.go:106-133 | a join and a removal, both audited, reach that case from the empty state |
| Recovery.FreshRestore | internal/controlplane/fsm/snapshot.go:49-120 | restoring into a fresh machine gives the snapshotted state |
| Recovery.RecoveryAtAnyCut | internal/controlplane/fsm/snapshot.go:15-120 | for every log and cut, snapshot, fresh restore and replay of the rest equals replaying the whole log |
| Recovery.ReachableIsFiled | internal/controlplane/fsm/fsm.go:51-585 | every reachable state files every entry under its own key |
| Recovery.BatchIsItsLeaves | internal/controlplane/fsm/fsm.go:529-540 | a batch tree is its leaves applied in order at one index |
| Cascades.DeployApplyReplaces | internal/controlplane/fsm/fsm.go:178-245 | after an apply the deployment's HTTP and TCP routes are exactly the declared ones, other routes change only at declared keys, plans of dropped services are gone, the superseded revision is kept, the rest is untouched |
| Cascades.ReplaceSetIsExact | internal/controlplane/fsm/fsm.go:208-240 | when every declaration is the deployment's own, its entries afterwards, keys and values, are exactly the last declaration of each key |
| Cascades.DeployDeleteClears | internal/controlplane/fsm/fsm.go:266-297 | after a delete nothing of the deployment remains, observed and restart records of its replicas are gone, the rest is untouched |
| Leases.CertsFollowLeaves | internal/controlplane/fsm/fsm.go:391-421 | the certificate store after any log depends on the lock commands among its leaves alone |
| Leases.TenuresNeverOverlap | internal/controlplane/fsm/fsm.go:391-421 | with nondecreasing timestamps and holders unlocking, tenures of one lock never overlap |
| Leases.ForeignUnlockOverlaps | internal/controlplane/fsm/fsm.go:415-421 | an unlock of another node's running lease makes two tenures overlap |
| Leases.RenewalKeepsLock | internal/ingress/storage/storage.go:163-213 | a holder that renews within the lease keeps the lock through any rival attempts |
| Leases.RunIsCertRun | internal/controlplane/fsm/fsm.go:391-421 | the ledger's certificates are those of the state machine |
| Placement.EligibleHosts | internal/scheduler/placement/placement.go:45-73 | the sorted hostnames of the ready, admissible nodes |
| Placement.EligibleArePinned | internal/scheduler/placement/placement.go:45-73 | an eligible host is ready and, under HOSTS, pinned |
| Placement.PackHost | internal/scheduler/placement/placement.go:128-139 | the chosen host is eligible, no host has fewer replicas, and ties go to the first name |
| Placement.PickPackHost | internal/scheduler/placement/placement.go:128-139 | the scan finds exactly that host |
| Placement.PlaceReplica | internal/scheduler/placement/placement.go:77-117 | a placed host is eligible, under PACK the emptiest, and placement fails exactly without eligible hosts or with fewer pinned hosts than replicas |
| Placement.PinnedApart | internal/scheduler/placement/placement.go:77-108 | under HOSTS no two replicas of a service get the same host |
| Scheduler.Current | internal/scheduler/scheduler.go:243-251 | the service's own records and how many sit on each host |
| Scheduler.BuildWants | internal/scheduler/scheduler.go:255-300 | one wanted replica per eligible host under GLOBAL, else as many as asked for, each placed |
| Scheduler.IsRollingImageChange | internal/scheduler/scheduler.go:472-490 | rolling means there are records and either one runs the new image or all run named others |
| Scheduler.Upserts | internal/scheduler/scheduler.go:345-396 | the loop computes the planned upserts: drift gate, then image gate |
| Scheduler.Removals | internal/scheduler/scheduler.go:398-408 | exactly the records no longer wanted, each once, in any order |
| Scheduler.ReconcileTarget | internal/scheduler/scheduler.go:243-411 | the pass over given eligible hosts blocks exactly when the image is missing, no host is eligible, or HOSTS has fewer hosts than replicas; otherwise its commands are those of `IsPass` |
| Scheduler.ReconcileService | internal/scheduler/scheduler.go:234-411 | the pass from the nodes: eligible hosts are the ready, admissible ones in order, and the rest is `ReconcileTarget` |
| SchedulerRuns.PassApplies | internal/controlplane/fsm/fsm.go:308-318 | submitting a pass upserts its records with the raft index and removes the surplus |
| SchedulerRuns.PassAt | internal/scheduler/scheduler.go:345-411 | per id: surplus goes, an upserted id was not settled and now is, every other record is unchanged |
| SchedulerRuns.PassEmptyIffSettled | internal/scheduler/scheduler.go:234-411 | without a rollout driver a pass emits nothing if and only if stored ids equal wanted ids with admissible host, image and spec hash |
| SchedulerRuns.PassMakesProgress | internal/scheduler/scheduler.go:234-411 | every non-empty pass strictly shrinks the set of unsettled ids |
| SchedulerRuns.PassesTerminate | internal/scheduler/scheduler.go:234-411 | a chain of non-empty passes is no longer than the number of ids unsettled at its start |
| SchedulerRuns.SettledMeans | internal/scheduler/scheduler.go:255-300 | a settled service has exactly its ids on record, all good, and as many as asked for |
| SchedulerRuns.IdsInjective | internal/scheduler/counter/counter.go:71-73 | replica ids of one service are distinct |
| SchedulerRuns.EligibleIsValid | internal/controlplane/grpc/jaco_spec.go:207-209 | the validated spec and named nodes meet the precondition of the progress results |
| SchedulerRuns.RollingPassIsGentle | internal/scheduler/scheduler.go:309-396 | whatever the rollout driver returned, a rolling pass changes the image of at most one replica that keeps its host and moves no replica off an admissible host |
| Backoff.BackoffIsCappedDoubling | internal/ingress/stagefirst/controller.go:138-147 | in wrapping 64-bit arithmetic the backoff is min(15m * 2^(n-1), 1h) for every n, also where the shift overflows |
| Backoff.BackoffMonotone | internal/ingress/stagefirst/controller.go:138-147 | the backoff never shrinks as failures grow |
| StageFirst.Controller.constructor | internal/ingress/stagefirst/controller.go:69-92 | a controller starts with empty books |
| StageFirst.Controller.Reconcile | internal/ingress/stagefirst/controller.go:171-348 | the loops compute `Reconciled` and report whether the staging set changed |
| StageFirst.Controller.DropDead | internal/ingress/stagefirst/controller.go:191-201 | exactly the staging domains without a tls:auto route are dropped |
| StageFirst.Controller.Turn | internal/ingress/stagefirst/controller.go:203-347 | one domain's turn computes `VisitDomain` |
| StageFirst.Controller.TurnStaging | internal/ingress/stagefirst/controller.go:204-271 | the turn of a domain in its staging window |
| StageFirst.Controller.TurnNew | internal/ingress/stagefirst/controller.go:321-346 | the decision for a domain that is not in flight |
| StageFirstRuns.RunAccounts | internal/ingress/stagefirst/controller.go:171-348 | over every run a domain is in at most one book; stage entries are staging, promoted, failed, converged or dropped; promotions are pending, failed or issued |
| StageFirstRuns.PromotionsAreSpaced | internal/ingress/stagefirst/controller.go:253-345 | two promotions of a domain with no prod certificate seen in between are at least the pending window plus the current backoff apart, though routes come and go |
| StageFirstRuns.IssuedLeavesStaging | internal/ingress/stagefirst/controller.go:171-348 | after a pass no issued domain and no domain without a tls:auto route is staging |
| StagingWindow.TlsAutoDomains | internal/daemon/grpc/ingress.go:414-425 | the domains with a tls:auto route, each once |
| StagingWindow.StagingFromState | internal/daemon/grpc/ingress.go:338-349 | tls:auto domains with a staging and without a prod certificate |
| StagingWindow.StagingForBuilder | internal/daemon/grpc/ingress.go:360-368 | the leader alone adds the controller's own set |
| StagingWindow.IssuedIsProdEverywhere | internal/daemon/grpc/ingress.go:338-368 | an issued domain is rendered under the prod CA on followers, and on the leader after its next pass |
| Cidr.BlockRoundTrip | internal/discovery/ipam/ipam.go:202-216 | a rendered /24 parses back to its octets and contains exactly its 256 addresses |
| Ipam.NextFree | internal/discovery/ipam/ipam.go:174-197 | the scan returns the /24 of the lowest octet no subnet uses, or fails |
| Ipam.Allocate | internal/discovery/ipam/ipam.go:96-139 | allocation is idempotent, and a new triple gets the lowest free block |
| Ipam.AllocationsStayDisjoint | internal/discovery/ipam/ipam.go:96-197 | in every interleaving of an allocation, committed or refused, with any other commands all subnets are in-pool /24s and pairwise disjoint |
| Ipam.StepKeepsBlocks | internal/discovery/ipam/ipam.go:96-139 | an existing triple keeps its block |
| Ipam.ExhaustedIffFull | internal/discovery/ipam/ipam.go:174-197 | a scan reports exhaustion if and only if 256 subnets exist |
| Ipam.SubnetKeyInjective | internal/controlplane/state/subnets.go:20-22 | triples without the separator have distinct keys |
| Firewall.SetNameFits | internal/discovery/firewall/render.go:160-173 | set names fit nftables' limit |
| Firewall.SetNameCollides | internal/discovery/firewall/render.go:160-178 | two scopes with one set name |
| Firewall.Render | internal/discovery/firewall/render.go:45-153 | sets grouped by name in sorted scope order, blocks sorted, accepts before the pool drop |
| Firewall.RenderIgnoresOrder | internal/discovery/firewall/render.go:45-153 | the ruleset does not depend on the order of the subnets |
| Firewall.DropsExactlyCrossings | internal/discovery/firewall/render.go:45-153 | a packet is dropped if and only if it opens a connection between subnets with different set names |
| Isolation.ReachableIsolation | internal/discovery/firewall/render.go:45-153 | that holds in every state the allocator reaches, for any listing of the store |
| Isolation.FilterIsExact | internal/daemon/grpc/server.go:759-774 | the ruleset the daemon renders from the store drops exactly the crossings |
| Isolation.FilterIgnoresListing | internal/daemon/grpc/server.go:759-774 | any two listings of the store render one ruleset |
| CaddyConfig.HealthyByService | internal/ingress/config/config.go:130-147 | per service the sorted ids of its eligible replicas |
| CaddyConfig.BuildUpstreams | internal/ingress/config/config.go:403-418 | the dial addresses of eligible replicas with an address, in id order; the TCP list has the same loop |
| CaddyConfig.BuildDomainRoute | internal/ingress/config/config.go:359-400 | path routes longest first, then the last catch-all |
| CaddyConfig.BuildTLSPolicies | internal/ingress/config/config.go:549-606 | one policy per (staging, contact), sorted, each listing exactly its domains |
| CaddyConfig.RedirectDomains | internal/ingress/config/config.go:300-311 | exactly the domains with a tls:auto route while ACME is enabled |
| CaddyConfig.BuildLayer4Servers | internal/ingress/config/config.go:247-272 | a server for every published port that has an upstream |
| CaddyConfig.BuildCaddyConfig | internal/ingress/config/config.go:122-240 | the builder's loops produce a configuration that meets `Builds`: sites per sorted domain, policies, redirects, challenge route and TCP servers as specified |
| CaddyOrder.ConfigIgnoresOrder | internal/ingress/config/config.go:122-240 | permuting routes, TCP routes and replicas leaves the configuration unchanged, given unique (domain, path), unique ports and one contact per domain |
| CaddyOrder.ContactClashShows | internal/ingress/config/config.go:561-580 | with two contacts for a domain, two orders of the same routes give different configurations |
| IngressBuilder.Emails | internal/daemon/grpc/ingress.go:535-538 | each deployment's contact, whatever order deployments are listed in |
| IngressBuilder.Register | internal/daemon/grpc/ingress.go:573-594 | a replica's address is that of the last of its service's networks that has one |
| IngressBuilder.BuildServices | internal/daemon/grpc/ingress.go:572-595 | exactly the observed replicas with a desired record and an address, under their service key, in any listing order |
| IngressBuilder.BuildInputs | internal/daemon/grpc/ingress.go:528-612 | routes with their contact, TCP routes and replicas are projections of any listing of the stores |
| IngressBuilder.SameStateSameConfig | internal/daemon/grpc/ingress.go:528-634 | two nodes with the same replicated state, options and clock build the same configuration, however they range over their stores, while no domain has two contacts |
| CaddyDispatch.PathHitsMeans | internal/ingress/config/config.go:509-515 | a plain path takes itself and everything below it, a glob everything with its prefix |
| CaddyDispatch.LongestIffUnshadowed | internal/ingress/config/config.go:359-400 | the first matching path route has the longest prefix for every request, if and only if no plain path is shadowed by a glob |
| CaddyDispatch.PlainNeverShadowed | internal/ingress/config/config.go:359-400 | declared paths without globs are never shadowed |
| CaddyDispatch.GlobShadowsSegment | internal/ingress/config/config.go:372-379 | a concrete shadowed path |
| CaddyDispatch.StripIsPrefix | internal/ingress/config/config.go:493-515 | every request a route takes starts with the prefix the route strips |
| CaddyDispatch.StripOnSegmentIff | internal/ingress/config/config.go:493-515 | what is left after stripping starts a segment, except exactly for globs not ending in a slash |
| CaddyServing.HttpsServes | internal/ingress/config/config.go:150-185 | on 443, for every host and path: the first route in path order that takes the request, else the catch-all, else a 404 |
| CaddyServing.ChosenIsLongest | internal/ingress/config/config.go:359-400 | where no path is shadowed, that route has the longest prefix of all that take the request |
| CaddyServing.HttpServes | internal/ingress/config/config.go:162-197 | on 80 the challenge path is answered first whenever a policy exists, subjects redirect, other hosts are served as on 443 |
| CaddyServing.SubjectsPartition | internal/ingress/config/config.go:549-606 | the secured domains are exactly the policies' subjects, each in one policy, once, under the CA its staging state calls for |
| CaddyServing.ChallengeIffPolicy | internal/ingress/config/config.go:187-197 | the challenge route exists, first, if and only if a policy does |
| CaddyServing.GetRoute | internal/controlplane/grpc/getroute.go:22-50 | no domain and no routes are told apart, otherwise the domain's routes sorted for display |
| CaddyServing.ReportMirrorsSite | internal/controlplane/grpc/getroute.go:38-50 | the listing is exactly the order in which the site tries the routes |
| Reload.Loader.constructor | internal/daemon/grpc/ingress.go:672-673 | Caddy is not started |
| Reload.Loader.Load | internal/daemon/grpc/ingress.go:665-688 | a route-less configuration is skipped before start; otherwise Caddy runs it or refuses it unchanged |
| Reload.Reloader.constructor | internal/ingress/rebuild/rebuild.go:59-61 | nothing is cached |
| Reload.Reloader.Rebuild | internal/ingress/rebuild/rebuild.go:97-121 | build, compare, load and remember compute `Rebuilt`, and loads are counted when one was made |
| Reload.RunKeepsStep | internal/ingress/rebuild/rebuild.go:97-121 | over every sequence of rebuilds, started Caddy runs the cached configuration; before start nothing cached has a forwarding route |
| Reload.NilMeansRunning | internal/ingress/rebuild/rebuild.go:97-121 | a nil return means Caddy runs what was just built, once started, the route-less last configuration included |
| Reload.StartedIff | internal/daemon/grpc/ingress.go:654-688 | Caddy is started if and only if some rebuild accepted a forwarding route |
| AuditFollow.SendHistory | internal/controlplane/grpc/audit.go:36-48 | the history is every matching event, and the last index is the greatest |
| AuditFollow.Forward | internal/controlplane/grpc/audit.go:62-86 | the loop forwards, in order, every event above the last index |
| AuditFollow.AdvancesRefineOffer | internal/controlplane/state/audit_events.go:25-33 | the three channel operations of publishing an append, uninterrupted, are the broker's offer |
| AuditFollow.NeverTwice | internal/controlplane/grpc/audit.go:24-90 | in every interleaving, overflow or not and whatever indices are appended, followed events have strictly increasing indices above all of the history and none is sent twice |
| AuditFollow.DrainedSawAll | internal/controlplane/grpc/audit.go:50-90 | a follower that has drained its queue has looked up to the end of the published log |
| AuditFollow.FollowExactIff | internal/controlplane/grpc/audit.go:24-90 | in every run over a log in index order, history plus follow is the matching part of the log looked at, if and only if every matching event after the history was not skipped and has a greater index than the one looked at before |
| AuditFollow.SentIff | internal/controlplane/grpc/audit.go:58-86 | an event was followed if and only if it matches and stands at such a position |
| AuditFollow.QuietFollowIsExact | internal/controlplane/grpc/audit.go:24-90 | without an exposing overflow and with one event per index the stream is exact |
| AuditFollow.ExposedIff | internal/controlplane/watch/broker.go:140-152 | a step exposes the queue if and only if it is an overflow's drop whose second item is an event beyond what the follower will have seen |
| AuditFollow.CleanIff | internal/controlplane/grpc/audit.go:62-71 | a step makes a follower skip if and only if it receives from an exposed queue, and nothing undoes a skip |
| AuditFollow.GaplessIff | internal/controlplane/watch/broker.go:130-152 | a run skips nothing if and only if no receive takes its delivery from an exposed queue |
| AuditFollow.OnlyOverflowsSkip | internal/controlplane/watch/broker.go:137-152 | without an exposing overflow, in particular with a buffer of one, nothing is skipped |
| AuditFollow.OverflowLoses | internal/controlplane/watch/broker.go:137-152 | a run from the start in which the first of three events is never sent |
| AuditFollow.SecondOverflowRescues | internal/controlplane/watch/broker.go:137-152 | a run whose exposing overflow is undone by the next one |
| AuditFollow.ResyncDropExposes | internal/controlplane/watch/broker.go:137-152 | a run whose exposing overflow drops a Resync |
| AuditFollow.GapLosesEvent | internal/controlplane/grpc/audit.go:62-86 | a skipped event stays skipped in every continuation, is sent only if an equal event was looked at elsewhere, and makes the stream inexact if it matches |
| AuditFollow.ReplayedAuditOrdered | internal/controlplane/fsm/fsm.go:51-73 | replaying a raft log appends audit events in index order |
| AuditFollow.BatchSharesIndex | internal/controlplane/fsm/fsm.go:529-540 | a batch of audited commands appends events that share an index |

## Left out

- The CLI, gRPC transport, raft, bolt and TLS: the log is a given sequence of commands.
- Docker, nft, WireGuard and Caddy themselves: foreign calls; Caddy is a cell that a load overwrites, and a request is matched as its documentation says for exact paths and trailing stars. Case folding and wildcard hosts are not modelled.
- CaddyDispatch.PathHitsMeans: asks that a star, if any, is the path's last byte, because Caddy matches other stars by rules of its own.
- CaddyDispatch.LongestIffUnshadowed: asks the same of every path.
- CaddyDispatch.StripIsPrefix: asks the same.
- CaddyDispatch.StripOnSegmentIff: asks the same.
- CaddyServing.ChosenIsLongest: asks the same.
- JSON rendering of the configuration: the model builds a tree without the attributes that are the same in every configuration; the reloader's bytes are an arbitrary string.
- Raft applies that report an error and commit later: the reconcilers see a command as applied or not, so an allocation that fails has not taken its block.
- Events the state machine publishes while it applies: the stores of `Watch` publish, the machine of `Machine` does not.
- A batch whose child does not marshal: the model's children are commands already.
- Clones of stored messages: values in the model cannot be aliased.
- `Scheduler.Reconcile`, the loop over deployments, and the markers for pending deployments: only the pass of one service is modelled.
- The rollout state machine behind `driveRollout`: its return value is an arbitrary step.
- Placement.PlaceReplica: takes the host list already sorted, as `EligibleHosts` returns it, and does not sort again.
- Scheduling hash: a parameter; only that the chosen host is eligible matters.
- `prodCertIssued`, `loadStagingChain` and `SelfCheck`: oracles, read anew at each sighting.
- Fail counts beyond the range of a Go int: they do not wrap in the model.
- IPv6 addresses in `thirdOctet`: the pool is IPv4.
- `Lock`, `Unlock` and the renew goroutine as concurrent code: their effect on the log is modelled, and renewal is a sequence of commands.
- The disk cache of the certificate storage, challenge publishing and cache eviction on followers (`followerProdReloadTargets`, `reconcileStagingCache`).
- The debounce timer of the reload loop: any sequence of rebuilds is allowed.
- AuditFollow.FollowExactIff: asks for a log in index order, as replay writes it; `Restore` over a populated machine appends older indices, and then only NeverTwice and DrainedSawAll speak.
- `buildMatcher`: the audit filter is an arbitrary predicate.
- `upstreamReadiness`: the ready and total replica counts that GetRoute reports next to each route.
- Firewall.SetNameFits: sanitises byte by byte where the source replaces rune by rune, so a multi-byte rune gives several underscores instead of one; `Placement.ReplicaIDForHost` likewise.
- CaddyConfig.HealthyByService: reads the clock once per build; the source reads it for every replica.
- Time arithmetic that saturates: instants are unbounded integers.
