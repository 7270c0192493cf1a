/** The state machine as it runs: cascades loop over listings in whatever order
    the map yields them, batches recurse, snapshots list every store. */
module Machine {
  import opened Prelude
  import opened Entities
  import opened Fsm

  /** The snapshot message: one listing per store. */
  datatype Snapshot = Snapshot(
    cluster: Option<ClusterMeta>,
    nodes: seq<Node>,
    deployments: seq<Deployment>,
    desired: seq<ReplicaDesired>,
    observed: seq<ReplicaObserved>,
    routes: seq<Route>,
    tcpRoutes: seq<TcpRoute>,
    certs: seq<Cert>,
    certBlobs: seq<CertBlob>,
    challenges: seq<ChallengeToken>,
    tokens: seq<Token>,
    joinTokens: seq<JoinToken>,
    subnets: seq<Subnet>,
    plans: seq<RolloutPlan>,
    counters: seq<ReplicaCounter>,
    restarts: seq<RestartCounter>,
    credentials: seq<RegistryCredential>,
    audit: seq<AuditEvent>)

  /** `snap` is one of the snapshots `s` may produce. */
  ghost predicate IsSnapshot(s: State, snap: Snapshot) {
    && snap.cluster == s.cluster
    && IsListing(s.nodes, snap.nodes)
    && IsListing(s.deployments, snap.deployments)
    && IsListing(s.desired, snap.desired)
    && IsListing(s.observed, snap.observed)
    && IsListing(s.routes, snap.routes)
    && IsListing(s.tcpRoutes, snap.tcpRoutes)
    && IsListing(s.certs, snap.certs)
    && IsListing(s.certBlobs, snap.certBlobs)
    && IsListing(s.challenges, snap.challenges)
    && IsListing(s.tokens, snap.tokens)
    && IsListing(s.joinTokens, snap.joinTokens)
    && IsListing(s.subnets, snap.subnets)
    && IsListing(s.plans, snap.plans)
    && IsListing(s.counters, snap.counters)
    && IsListing(s.restarts, snap.restarts)
    && IsListing(s.credentials, snap.credentials)
    && snap.audit == s.audit
  }

  /** Restore upserts every listed entity and appends every audit event; it clears nothing. */
  function Restored(t: State, snap: Snapshot): State {
    State(
      if snap.cluster.Some? then snap.cluster else t.cluster,
      UpsertAll(t.nodes, snap.nodes, KeyOfNode),
      UpsertAll(t.deployments, snap.deployments, KeyOfDeployment),
      UpsertAll(t.desired, snap.desired, KeyOfDesired),
      UpsertAll(t.observed, snap.observed, KeyOfObserved),
      UpsertAll(t.routes, snap.routes, KeyOfRoute),
      UpsertAll(t.tcpRoutes, snap.tcpRoutes, KeyOfTcpRoute),
      UpsertAll(t.certs, snap.certs, KeyOfCert),
      UpsertAll(t.certBlobs, snap.certBlobs, KeyOfCertBlob),
      UpsertAll(t.challenges, snap.challenges, KeyOfChallenge),
      UpsertAll(t.tokens, snap.tokens, KeyOfToken),
      UpsertAll(t.joinTokens, snap.joinTokens, KeyOfJoinToken),
      UpsertAll(t.subnets, snap.subnets, KeyOfSubnet),
      UpsertAll(t.plans, snap.plans, KeyOfPlan),
      UpsertAll(t.counters, snap.counters, KeyOfCounter),
      UpsertAll(t.restarts, snap.restarts, KeyOfRestart),
      UpsertAll(t.credentials, snap.credentials, KeyOfCredential),
      t.audit + snap.audit)
  }

  lemma {:induction false} AppliedAllConcat(s: State, a: seq<Command>, b: seq<Command>, idx: nat)
    ensures AppliedAll(s, a + b, idx) == AppliedAll(AppliedAll(s, a, idx), b, idx)
    decreases a
  {
    if a == [] {
      assert a + b == b;
    } else {
      assert (a + b)[1..] == a[1..] + b;
      AppliedAllConcat(Applied(s, a[0], idx), a[1..], b, idx);
    }
  }

  /** Removes a deployment's replicas with their observed and restart records, one listed id at a time. */
  method RemoveReplicasOf(s: State, name: string)
    returns (desired: map<string, ReplicaDesired>, observed: map<string, ReplicaObserved>, restarts: map<string, RestartCounter>)
    requires Filed(s.desired, KeyOfDesired)
    ensures desired == s.desired - ReplicaIds(s, name)
    ensures observed == s.observed - ReplicaIds(s, name)
    ensures restarts == s.restarts - ReplicaIds(s, name)
  {
    desired, observed, restarts := s.desired, s.observed, s.restarts;
    var listing := List(desired);
    ghost var gone: set<string> := {};
    for i := 0 to |listing|
      invariant desired == s.desired - gone
      invariant observed == s.observed - gone
      invariant restarts == s.restarts - gone
      invariant gone <= ReplicaIds(s, name)
      invariant forall j :: 0 <= j < i && listing[j].deployment == name ==> listing[j].id in gone
    {
      ListingSound(s.desired, listing, i);
      if listing[i].deployment == name {
        var id := listing[i].id;
        RemoveOneMore(s.desired, gone, id);
        RemoveOneMore(s.observed, gone, id);
        RemoveOneMore(s.restarts, gone, id);
        desired, observed, restarts := desired - {id}, observed - {id}, restarts - {id};
        gone := gone + {id};
      }
    }
    forall k | k in ReplicaIds(s, name) ensures k in gone {
      ListingComplete(s.desired, listing, k);
    }
    assert gone == ReplicaIds(s, name);
  }

  class Machine {
    var state: State

    constructor ()
      ensures state == EMPTY
    {
      state := EMPTY;
    }

    method RemoveNode(hostname: string)
      requires WellFiled(state)
      modifies this
      ensures state == AfterNodeRemove(old(state), hostname)
    {
      state := state.(nodes := state.nodes - {hostname});
      var kept := RemoveWhere(state.subnets, KeyOfSubnet, SubnetOn(hostname));
      state := state.(subnets := kept);
    }

    /** Replace-sets the deployment's routes: prune what the revision dropped, then upsert what it declares. */
    method ApplyDeployment(da: DeploymentApply, ts: Timestamp)
      requires WellFiled(state)
      modifies this
      ensures state == AfterDeployApply(old(state), da, ts)
    {
      state := state.(deployments := state.deployments[da.deployment := AppliedDeployment(state, da, ts)]);
      var plans := RemoveWhere(state.plans, KeyOfPlan, DroppedPlan(da));
      var routes := RemoveWhere(state.routes, KeyOfRoute, DroppedRoute(da));
      routes := UpsertEach(routes, da.routes, KeyOfRoute);
      var tcpRoutes := RemoveWhere(state.tcpRoutes, KeyOfTcpRoute, DroppedTcpRoute(da));
      tcpRoutes := UpsertEach(tcpRoutes, da.tcpRoutes, KeyOfTcpRoute);
      state := state.(plans := plans, routes := routes, tcpRoutes := tcpRoutes);
    }

    method DeleteDeployment(name: string)
      requires WellFiled(state)
      modifies this
      ensures state == AfterDeployDelete(old(state), name)
    {
      var routes := RemoveWhere(state.routes, KeyOfRoute, RouteOf(name));
      var tcpRoutes := RemoveWhere(state.tcpRoutes, KeyOfTcpRoute, TcpRouteOf(name));
      var desired, observed, restarts := RemoveReplicasOf(state, name);
      var plans := RemoveWhere(state.plans, KeyOfPlan, PlanOf(name));
      var subnets := RemoveWhere(state.subnets, KeyOfSubnet, SubnetOf(name));
      state := state.(routes := routes, tcpRoutes := tcpRoutes, desired := desired, observed := observed,
                      restarts := restarts, plans := plans, subnets := subnets,
                      deployments := state.deployments - {name});
    }

    method RemoveDomain(domain: string)
      requires WellFiled(state)
      modifies this
      ensures state == AfterRouteRemove(old(state), domain)
    {
      var routes := RemoveWhere(state.routes, KeyOfRoute, RouteUnder(domain));
      state := state.(routes := routes);
    }

    method FreeSubnets(deployment: string, network: string, host: string)
      requires WellFiled(state)
      modifies this
      ensures state == AfterSubnetFree(old(state), deployment, network, host)
    {
      if deployment != "" && network != "" && host != "" {
        state := state.(subnets := state.subnets - {SubnetKey(deployment, network, host)});
      } else {
        var subnets := RemoveWhere(state.subnets, KeyOfSubnet, SubnetMatching(deployment, network, host));
        state := state.(subnets := subnets);
      }
    }

    method ApplyCascade(p: Payload, ts: Timestamp)
      requires WellFiled(state) && IsCascade(p)
      modifies this
      ensures state == AfterCascade(old(state), p, ts)
    {
      match p
      case NodeRemove(hostname) => RemoveNode(hostname);
      case DeployApply(da) => ApplyDeployment(da, ts);
      case DeployDelete(name) => DeleteDeployment(name);
      case RouteRemove(domain) => RemoveDomain(domain);
      case SubnetFree(deployment, network, host) => FreeSubnets(deployment, network, host);
    }

    /** Whatever order the listings come in, every replica reaches the state `Applied` names. */
    method Apply(cmd: Command, idx: nat)
      requires WellFiled(state)
      modifies this
      ensures WellFiled(state) && state == Applied(old(state), cmd, idx)
      decreases cmd
    {
      if cmd.payload.Batch? {
        ApplyBatch(cmd, cmd.payload.children, idx);
      } else {
        if IsCascade(cmd.payload) {
          ApplyCascade(cmd.payload, cmd.ts);
        } else {
          state := AfterEntry(state, cmd, idx);
        }
        state := Recorded(state, cmd, idx);
      }
    }

    /** One raft log entry; bytes that do not decode change nothing. */
    method ApplyEntry(e: Entry)
      requires WellFiled(state)
      modifies this
      ensures WellFiled(state)
      ensures state == if e.command.Some? then Applied(old(state), e.command.value, e.index) else old(state)
    {
      if e.command.Some? {
        Apply(e.command.value, e.index);
      }
    }

    method ApplyBatch(cmd: Command, children: seq<Command>, idx: nat)
      requires WellFiled(state)
      requires cmd.payload.Batch? && cmd.payload.children == children
      modifies this
      ensures WellFiled(state) && state == AppliedAll(old(state), children, idx)
      decreases cmd, 0
    {
      for i := 0 to |children|
        invariant WellFiled(state) && state == AppliedAll(old(state), children[..i], idx)
      {
        Apply(children[i], idx);
        AppliedAllConcat(old(state), children[..i], [children[i]], idx);
        assert children[..i] + [children[i]] == children[..i + 1];
      }
      assert children[..|children|] == children;
    }

    method TakeSnapshot() returns (snap: Snapshot)
      ensures IsSnapshot(state, snap)
    {
      var nodes := List(state.nodes);
      var deployments := List(state.deployments);
      var desired := List(state.desired);
      var observed := List(state.observed);
      var routes := List(state.routes);
      var tcpRoutes := List(state.tcpRoutes);
      var certs := List(state.certs);
      var certBlobs := List(state.certBlobs);
      var challenges := List(state.challenges);
      var tokens := List(state.tokens);
      var joinTokens := List(state.joinTokens);
      var subnets := List(state.subnets);
      var plans := List(state.plans);
      var counters := List(state.counters);
      var restarts := List(state.restarts);
      var credentials := List(state.credentials);
      snap := Snapshot(state.cluster, nodes, deployments, desired, observed, routes, tcpRoutes, certs, certBlobs,
                       challenges, tokens, joinTokens, subnets, plans, counters, restarts, credentials, state.audit);
    }

    method Restore(snap: Snapshot)
      modifies this
      ensures state == Restored(old(state), snap)
    {
      if snap.cluster.Some? {
        state := state.(cluster := snap.cluster);
      }
      var nodes := UpsertEach(state.nodes, snap.nodes, KeyOfNode);
      var deployments := UpsertEach(state.deployments, snap.deployments, KeyOfDeployment);
      var desired := UpsertEach(state.desired, snap.desired, KeyOfDesired);
      var observed := UpsertEach(state.observed, snap.observed, KeyOfObserved);
      var routes := UpsertEach(state.routes, snap.routes, KeyOfRoute);
      var tcpRoutes := UpsertEach(state.tcpRoutes, snap.tcpRoutes, KeyOfTcpRoute);
      var certs := UpsertEach(state.certs, snap.certs, KeyOfCert);
      var certBlobs := UpsertEach(state.certBlobs, snap.certBlobs, KeyOfCertBlob);
      var challenges := UpsertEach(state.challenges, snap.challenges, KeyOfChallenge);
      var tokens := UpsertEach(state.tokens, snap.tokens, KeyOfToken);
      var joinTokens := UpsertEach(state.joinTokens, snap.joinTokens, KeyOfJoinToken);
      var subnets := UpsertEach(state.subnets, snap.subnets, KeyOfSubnet);
      var plans := UpsertEach(state.plans, snap.plans, KeyOfPlan);
      var counters := UpsertEach(state.counters, snap.counters, KeyOfCounter);
      var restarts := UpsertEach(state.restarts, snap.restarts, KeyOfRestart);
      var credentials := UpsertEach(state.credentials, snap.credentials, KeyOfCredential);
      state := State(state.cluster, nodes, deployments, desired, observed, routes, tcpRoutes, certs, certBlobs,
                     challenges, tokens, joinTokens, subnets, plans, counters, restarts, credentials,
                     state.audit + snap.audit);
    }
  }
}
