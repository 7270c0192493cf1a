/** Snapshots, restores and replays of the state machine. */
module Recovery {
  import opened Prelude
  import opened Entities
  import opened Fsm
  import opened Machine

  /** `s` laid over `t`: what restoring `s` into a machine at `t` produces. */
  ghost function Overlaid(t: State, s: State): State {
    State(
      if s.cluster.Some? then s.cluster else t.cluster,
      t.nodes + s.nodes,
      t.deployments + s.deployments,
      t.desired + s.desired,
      t.observed + s.observed,
      t.routes + s.routes,
      t.tcpRoutes + s.tcpRoutes,
      t.certs + s.certs,
      t.certBlobs + s.certBlobs,
      t.challenges + s.challenges,
      t.tokens + s.tokens,
      t.joinTokens + s.joinTokens,
      t.subnets + s.subnets,
      t.plans + s.plans,
      t.counters + s.counters,
      t.restarts + s.restarts,
      t.credentials + s.credentials,
      t.audit + s.audit)
  }

  /** Nothing in `t` would survive under `s`: no key of its own, no audit event, no cluster record. */
  ghost predicate Covered(t: State, s: State) {
    && (t.cluster.Some? ==> s.cluster.Some?)
    && t.nodes.Keys <= s.nodes.Keys
    && t.deployments.Keys <= s.deployments.Keys
    && t.desired.Keys <= s.desired.Keys
    && t.observed.Keys <= s.observed.Keys
    && t.routes.Keys <= s.routes.Keys
    && t.tcpRoutes.Keys <= s.tcpRoutes.Keys
    && t.certs.Keys <= s.certs.Keys
    && t.certBlobs.Keys <= s.certBlobs.Keys
    && t.challenges.Keys <= s.challenges.Keys
    && t.tokens.Keys <= s.tokens.Keys
    && t.joinTokens.Keys <= s.joinTokens.Keys
    && t.subnets.Keys <= s.subnets.Keys
    && t.plans.Keys <= s.plans.Keys
    && t.counters.Keys <= s.counters.Keys
    && t.restarts.Keys <= s.restarts.Keys
    && t.credentials.Keys <= s.credentials.Keys
    && t.audit == []
  }

  lemma RestoreEarlierStores(t: State, s: State, snap: Snapshot)
    requires WellFiled(s) && IsSnapshot(s, snap)
    ensures var r := Restored(t, snap);
            && r.nodes == t.nodes + s.nodes
            && r.deployments == t.deployments + s.deployments
            && r.desired == t.desired + s.desired
            && r.observed == t.observed + s.observed
            && r.routes == t.routes + s.routes
            && r.tcpRoutes == t.tcpRoutes + s.tcpRoutes
            && r.certs == t.certs + s.certs
            && r.certBlobs == t.certBlobs + s.certBlobs
  {
    UpsertListing(t.nodes, s.nodes, snap.nodes, KeyOfNode);
    UpsertListing(t.deployments, s.deployments, snap.deployments, KeyOfDeployment);
    UpsertListing(t.desired, s.desired, snap.desired, KeyOfDesired);
    UpsertListing(t.observed, s.observed, snap.observed, KeyOfObserved);
    UpsertListing(t.routes, s.routes, snap.routes, KeyOfRoute);
    UpsertListing(t.tcpRoutes, s.tcpRoutes, snap.tcpRoutes, KeyOfTcpRoute);
    UpsertListing(t.certs, s.certs, snap.certs, KeyOfCert);
    UpsertListing(t.certBlobs, s.certBlobs, snap.certBlobs, KeyOfCertBlob);
  }

  lemma RestoreLaterStores(t: State, s: State, snap: Snapshot)
    requires WellFiled(s) && IsSnapshot(s, snap)
    ensures var r := Restored(t, snap);
            && r.challenges == t.challenges + s.challenges
            && r.tokens == t.tokens + s.tokens
            && r.joinTokens == t.joinTokens + s.joinTokens
            && r.subnets == t.subnets + s.subnets
            && r.plans == t.plans + s.plans
            && r.counters == t.counters + s.counters
            && r.restarts == t.restarts + s.restarts
            && r.credentials == t.credentials + s.credentials
  {
    UpsertListing(t.challenges, s.challenges, snap.challenges, KeyOfChallenge);
    UpsertListing(t.tokens, s.tokens, snap.tokens, KeyOfToken);
    UpsertListing(t.joinTokens, s.joinTokens, snap.joinTokens, KeyOfJoinToken);
    UpsertListing(t.subnets, s.subnets, snap.subnets, KeyOfSubnet);
    UpsertListing(t.plans, s.plans, snap.plans, KeyOfPlan);
    UpsertListing(t.counters, s.counters, snap.counters, KeyOfCounter);
    UpsertListing(t.restarts, s.restarts, snap.restarts, KeyOfRestart);
    UpsertListing(t.credentials, s.credentials, snap.credentials, KeyOfCredential);
  }

  /** Restoring any snapshot of `s` into a machine at `t` overlays `s` on `t`,
      whatever order the stores were listed in. */
  lemma RestoreOverlays(t: State, s: State, snap: Snapshot)
    requires WellFiled(s) && IsSnapshot(s, snap)
    ensures Restored(t, snap) == Overlaid(t, s)
  {
    RestoreEarlierStores(t, s, snap);
    RestoreLaterStores(t, s, snap);
  }

  lemma OverlayIsTop<T>(m: map<string, T>, n: map<string, T>)
    ensures m + n == n <==> m.Keys <= n.Keys
  {
  }

  lemma CoveredIsReplaced(t: State, s: State)
    requires Covered(t, s)
    ensures Overlaid(t, s) == s
  {
    OverlayIsTop(t.nodes, s.nodes);
    OverlayIsTop(t.deployments, s.deployments);
    OverlayIsTop(t.desired, s.desired);
    OverlayIsTop(t.observed, s.observed);
    OverlayIsTop(t.routes, s.routes);
    OverlayIsTop(t.tcpRoutes, s.tcpRoutes);
    OverlayIsTop(t.certs, s.certs);
    OverlayIsTop(t.certBlobs, s.certBlobs);
    OverlayIsTop(t.challenges, s.challenges);
    OverlayIsTop(t.tokens, s.tokens);
    OverlayIsTop(t.joinTokens, s.joinTokens);
    OverlayIsTop(t.subnets, s.subnets);
    OverlayIsTop(t.plans, s.plans);
    OverlayIsTop(t.counters, s.counters);
    OverlayIsTop(t.restarts, s.restarts);
    OverlayIsTop(t.credentials, s.credentials);
  }

  lemma ReplacedIsCovered(t: State, s: State)
    requires Overlaid(t, s) == s
    ensures Covered(t, s)
  {
    OverlayIsTop(t.nodes, s.nodes);
    OverlayIsTop(t.deployments, s.deployments);
    OverlayIsTop(t.desired, s.desired);
    OverlayIsTop(t.observed, s.observed);
    OverlayIsTop(t.routes, s.routes);
    OverlayIsTop(t.tcpRoutes, s.tcpRoutes);
    OverlayIsTop(t.certs, s.certs);
    OverlayIsTop(t.certBlobs, s.certBlobs);
    OverlayIsTop(t.challenges, s.challenges);
    OverlayIsTop(t.tokens, s.tokens);
    OverlayIsTop(t.joinTokens, s.joinTokens);
    OverlayIsTop(t.subnets, s.subnets);
    OverlayIsTop(t.plans, s.plans);
    OverlayIsTop(t.counters, s.counters);
    OverlayIsTop(t.restarts, s.restarts);
    OverlayIsTop(t.credentials, s.credentials);
    assert |t.audit + s.audit| == |t.audit| + |s.audit|;
  }

  /** Restore replaces the state exactly when the machine held nothing the snapshot does not cover. */
  lemma RestoreReplacesIffCovered(t: State, s: State, snap: Snapshot)
    requires WellFiled(s) && IsSnapshot(s, snap)
    ensures Restored(t, snap) == s <==> Covered(t, s)
  {
    assert Restored(t, snap) == Overlaid(t, s) by { RestoreOverlays(t, s, snap); }
    if Covered(t, s) {
      CoveredIsReplaced(t, s);
    } else if Overlaid(t, s) == s {
      ReplacedIsCovered(t, s);
    }
  }

  lemma FreshRestore(s: State, snap: Snapshot)
    requires WellFiled(s) && IsSnapshot(s, snap)
    ensures Restored(EMPTY, snap) == s
  {
    assert Covered(EMPTY, s);
    RestoreReplacesIffCovered(EMPTY, s, snap);
  }

  lemma JoinAdds(s: State, cmd: Command, idx: nat)
    requires cmd.payload.NodeJoin?
    ensures cmd.payload.hostname in Applied(s, cmd, idx).nodes
    ensures Applied(s, cmd, idx).audit == s.audit + Noted(cmd, idx) && |Noted(cmd, idx)| == 1
  {
    assert Mutated(s, cmd, idx) == AfterClusterEntry(s, cmd.payload, cmd.ts);
  }

  lemma RemoveDrops(s: State, cmd: Command, idx: nat)
    requires cmd.payload.NodeRemove?
    ensures cmd.payload.hostname !in Applied(s, cmd, idx).nodes
    ensures Applied(s, cmd, idx).audit == s.audit + Noted(cmd, idx) && |Noted(cmd, idx)| == 1
  {
    NodeGone(s, cmd, idx);
    assert Applied(s, cmd, idx) == Recorded(Mutated(s, cmd, idx), cmd, idx);
  }

  lemma NodeGone(s: State, cmd: Command, idx: nat)
    requires cmd.payload.NodeRemove?
    ensures cmd.payload.hostname !in Mutated(s, cmd, idx).nodes && Mutated(s, cmd, idx).audit == s.audit
  {
    assert Mutated(s, cmd, idx) == AfterCascade(s, cmd.payload, cmd.ts) == AfterNodeRemove(s, cmd.payload.hostname);
  }

  /** A machine that has replayed `log` restores a snapshot taken after `more`: every node
      that `more` removed is back, and the snapshot's audit events follow the machine's own. */
  lemma RestoreResurrects(log: seq<Entry>, more: seq<Entry>, t: State, s: State, snap: Snapshot, h: string)
    requires t == Replayed(EMPTY, log) && s == Replayed(EMPTY, log + more) && IsSnapshot(s, snap)
    requires h in t.nodes && h !in s.nodes
    ensures h in Restored(t, snap).nodes && Restored(t, snap) != s
    ensures Restored(t, snap).audit == t.audit + s.audit
  {
    ReachableIsFiled(log + more);
    RestoreOverlays(t, s, snap);
  }

  /** Two commands are enough: a node joins and is removed. Both are audited. */
  lemma NodeCanBeResurrected(join: Command, remove: Command, i: nat, j: nat)
    requires join.payload.NodeJoin? && remove.payload.NodeRemove? && join.payload.hostname == remove.payload.hostname
    ensures var t := Replayed(EMPTY, [Entry(i, Some(join))]);
            var s := Replayed(EMPTY, [Entry(i, Some(join))] + [Entry(j, Some(remove))]);
            && join.payload.hostname in t.nodes && join.payload.hostname !in s.nodes
            && |t.audit| == 1 && |s.audit| == 2 && t.audit[0] == s.audit[0]
  {
    JoinThenRemove(EMPTY, join, remove, i, j);
    ReplayedShows(EMPTY, join, remove, i, j, join.payload.hostname);
  }

  lemma ReplayedShows(e: State, a: Command, b: Command, i: nat, j: nat, h: string)
    requires e.audit == []
    requires var t := Applied(e, a, i);
             var s := Applied(t, b, j);
             h in t.nodes && h !in s.nodes && |t.audit| == 1 && |s.audit| == 2 && t.audit <= s.audit
    ensures var t := Replayed(e, [Entry(i, Some(a))]);
            var s := Replayed(e, [Entry(i, Some(a))] + [Entry(j, Some(b))]);
            h in t.nodes && h !in s.nodes && |t.audit| == 1 && |s.audit| == 2 && t.audit[0] == s.audit[0]
  {
    ReplayedPair(e, a, b, i, j);
  }

  lemma JoinThenRemove(e: State, join: Command, remove: Command, i: nat, j: nat)
    requires join.payload.NodeJoin? && remove.payload.NodeRemove? && join.payload.hostname == remove.payload.hostname
    ensures var t := Applied(e, join, i);
            var s := Applied(t, remove, j);
            && join.payload.hostname in t.nodes && join.payload.hostname !in s.nodes
            && t.audit == e.audit + Noted(join, i) && s.audit == t.audit + Noted(remove, j)
            && |Noted(join, i)| == |Noted(remove, j)| == 1
  {
    JoinAdds(e, join, i);
    RemoveDrops(Applied(e, join, i), remove, j);
  }

  lemma ReplayedPair(s: State, a: Command, b: Command, i: nat, j: nat)
    ensures Replayed(s, [Entry(i, Some(a))]) == Applied(s, a, i)
    ensures Replayed(s, [Entry(i, Some(a))] + [Entry(j, Some(b))]) == Applied(Applied(s, a, i), b, j)
  {
    ReplayedConcat(s, [Entry(i, Some(a))], [Entry(j, Some(b))]);
    ReplayedOne(s, a, i);
    ReplayedOne(Applied(s, a, i), b, j);
  }

  lemma ReplayedOne(s: State, a: Command, i: nat)
    ensures Replayed(s, [Entry(i, Some(a))]) == Applied(s, a, i)
  {
    assert [Entry(i, Some(a))][1..] == [];
  }

  lemma {:induction false} ReplayedConcat(s: State, a: seq<Entry>, b: seq<Entry>)
    ensures Replayed(s, a + b) == Replayed(Replayed(s, a), b)
    decreases a
  {
    if a == [] {
      assert a + b == b;
    } else {
      assert (a + b)[1..] == a[1..] + b;
      var e := a[0];
      ReplayedConcat(if e.command.Some? then Applied(s, e.command.value, e.index) else s, a[1..], b);
    }
  }

  lemma {:induction false} ReachableIsFiled(log: seq<Entry>)
    ensures WellFiled(Replayed(EMPTY, log))
  {
  }

  lemma ReplayedAcross(s: State, log: seq<Entry>, a: seq<Entry>, b: seq<Entry>)
    requires log == a + b
    ensures Replayed(s, log) == Replayed(Replayed(s, a), b)
  {
    ReplayedConcat(s, a, b);
  }

  lemma ReplayedSplit(s: State, log: seq<Entry>, cut: nat)
    requires cut <= |log|
    ensures Replayed(s, log) == Replayed(Replayed(s, log[..cut]), log[cut..])
  {
    ReplayedAcross(s, log, log[..cut], log[cut..]);
  }

  /** For every log and every cut: snapshot at the cut, restore into a fresh
      machine, replay the rest, and the state is that of replaying the whole log. */
  lemma {:induction false} RecoveryAtAnyCut(log: seq<Entry>, cut: nat, s: State, snap: Snapshot)
    requires cut <= |log| && s == Replayed(EMPTY, log[..cut]) && IsSnapshot(s, snap)
    ensures Replayed(Restored(EMPTY, snap), log[cut..]) == Replayed(EMPTY, log)
  {
    ReachableIsFiled(log[..cut]);
    FreshRestore(s, snap);
    ReplayedSplit(EMPTY, log, cut);
  }

  // ---- Batches ---------------------------------------------------------------------

  /** The commands of a batch tree in the order they apply. */
  function Leaves(cmd: Command): (r: seq<Command>)
    ensures forall c :: c in r ==> !c.payload.Batch?
    decreases cmd, 1
  {
    if cmd.payload.Batch? then AllLeaves(cmd.payload.children) else [cmd]
  }

  function AllLeaves(cmds: seq<Command>): (r: seq<Command>)
    ensures forall c :: c in r ==> !c.payload.Batch?
    decreases cmds, 0
  {
    if cmds == [] then [] else Leaves(cmds[0]) + AllLeaves(cmds[1..])
  }

  /** A batch, however nested, is its leaves applied in order at one raft index. */
  lemma {:induction false} BatchIsItsLeaves(s: State, cmd: Command, idx: nat)
    ensures Applied(s, cmd, idx) == AppliedAll(s, Leaves(cmd), idx)
    decreases cmd, 1
  {
    if cmd.payload.Batch? {
      BatchesAreTheirLeaves(s, cmd.payload.children, idx);
    } else {
      assert AppliedAll(s, [cmd], idx) == AppliedAll(Applied(s, cmd, idx), [], idx);
    }
  }

  lemma {:induction false} BatchesAreTheirLeaves(s: State, cmds: seq<Command>, idx: nat)
    ensures AppliedAll(s, cmds, idx) == AppliedAll(s, AllLeaves(cmds), idx)
    decreases cmds, 0
  {
    if cmds != [] {
      BatchIsItsLeaves(s, cmds[0], idx);
      BatchesAreTheirLeaves(Applied(s, cmds[0], idx), cmds[1..], idx);
      AppliedAllConcat(s, Leaves(cmds[0]), AllLeaves(cmds[1..]), idx);
    }
  }
}
