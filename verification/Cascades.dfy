/** What applying and deleting a deployment leave behind, store by store. */
module Cascades {
  import opened Prelude
  import opened Entities
  import opened Fsm

  /** `after` is `before` with the entries of one owner replaced by `declared`:
      each declared key holds the last declaration for it, the owner's other
      entries are gone, everybody else's are untouched. */
  ghost predicate ReplaceSet<T>(before: map<string, T>, after: map<string, T>, declared: seq<T>, key: T -> string, mine: T -> bool) {
    forall k ::
      match LastWith(declared, key, k)
      case Some(v) => k in after && after[k] == v
      case None => (k in after <==> k in before && !mine(before[k])) && (k in after ==> after[k] == before[k])
  }

  lemma PruneThenUpsert<T>(before: map<string, T>, declared: seq<T>, key: T -> string, mine: T -> bool, dropped: T -> bool)
    requires Filed(before, key)
    requires forall v :: dropped(v) <==> mine(v) && forall d :: d in declared ==> key(d) != key(v)
    ensures ReplaceSet(before, UpsertAll(Without(before, dropped), declared, key), declared, key, mine)
  {
    var after := UpsertAll(Without(before, dropped), declared, key);
    forall k
      ensures match LastWith(declared, key, k)
              case Some(v) => k in after && after[k] == v
              case None => (k in after <==> k in before && !mine(before[k])) && (k in after ==> after[k] == before[k])
    {
      UpsertAllAt(Without(before, dropped), declared, key, k);
    }
  }

  /** When every declaration is the owner's, the owner's entries afterwards are exactly the declared ones. */
  lemma ReplaceSetIsExact<T>(before: map<string, T>, after: map<string, T>, declared: seq<T>, key: T -> string, mine: T -> bool)
    requires ReplaceSet(before, after, declared, key, mine)
    requires forall d :: d in declared ==> mine(d)
    ensures forall k :: LastWith(declared, key, k) == if k in after && mine(after[k]) then Some(after[k]) else None
  {
  }

  /** The declared revision and services are on record, with the superseded revision. */
  ghost predicate RecordsRevision(before: map<string, Deployment>, after: map<string, Deployment>, da: DeploymentApply) {
    && after - {da.deployment} == before - {da.deployment}
    && da.deployment in after
    && after[da.deployment].appliedRevision == da.revision
    && after[da.deployment].services == da.services
    && (da.deployment in before ==> after[da.deployment].previousRevision == before[da.deployment].appliedRevision)
  }

  /** The routes are replaced by the declared ones, plans of services no longer
      declared are dropped, the superseded revision is remembered, and no other
      store but the audit log is touched. */
  ghost predicate DeployApplyEffect(s: State, da: DeploymentApply, s': State) {
    && ReplaceSet(s.routes, s'.routes, da.routes, KeyOfRoute, RouteOf(da.deployment))
    && ReplaceSet(s.tcpRoutes, s'.tcpRoutes, da.tcpRoutes, KeyOfTcpRoute, TcpRouteOf(da.deployment))
    && Cleared(s.plans, s'.plans, DroppedPlan(da))
    && RecordsRevision(s.deployments, s'.deployments, da)
    && s' == s.(routes := s'.routes, tcpRoutes := s'.tcpRoutes, plans := s'.plans,
                deployments := s'.deployments, audit := s'.audit)
  }

  /** `after` is `before` without the entries `gone` selects. */
  ghost predicate Cleared<T>(before: map<string, T>, after: map<string, T>, gone: T -> bool) {
    && (forall k :: k in after <==> k in before && !gone(before[k]))
    && (forall k :: k in after ==> after[k] == before[k])
  }

  function ObservedOf(s: State, name: string): ReplicaObserved -> bool {
    (o: ReplicaObserved) => o.id in s.desired && s.desired[o.id].deployment == name
  }

  function RestartOf(s: State, name: string): RestartCounter -> bool {
    (c: RestartCounter) => c.replicaId in s.desired && s.desired[c.replicaId].deployment == name
  }

  function Named(name: string): Deployment -> bool { (d: Deployment) => d.name == name }

  /** Nothing of the deployment is left, observed and restart records go with the
      replicas they belong to, and nothing else but the audit log is touched. */
  ghost predicate DeployDeleteEffect(s: State, name: string, s': State) {
    && Cleared(s.routes, s'.routes, RouteOf(name))
    && Cleared(s.tcpRoutes, s'.tcpRoutes, TcpRouteOf(name))
    && Cleared(s.desired, s'.desired, DesiredOf(name))
    && Cleared(s.plans, s'.plans, PlanOf(name))
    && Cleared(s.subnets, s'.subnets, SubnetOf(name))
    && Cleared(s.observed, s'.observed, ObservedOf(s, name))
    && Cleared(s.restarts, s'.restarts, RestartOf(s, name))
    && Cleared(s.deployments, s'.deployments, Named(name))
    && s' == s.(routes := s'.routes, tcpRoutes := s'.tcpRoutes, desired := s'.desired, plans := s'.plans,
                subnets := s'.subnets, observed := s'.observed, restarts := s'.restarts,
                deployments := s'.deployments, audit := s'.audit)
  }

  lemma CascadeThenAudit(s: State, cmd: Command, idx: nat)
    requires IsCascade(cmd.payload)
    ensures Applied(s, cmd, idx) == AfterCascade(s, cmd.payload, cmd.ts).(audit := Applied(s, cmd, idx).audit)
  {
    assert Mutated(s, cmd, idx) == AfterCascade(s, cmd.payload, cmd.ts);
  }

  lemma AfterDeployApplyRecords(s: State, da: DeploymentApply, ts: Timestamp)
    ensures RecordsRevision(s.deployments, AfterDeployApply(s, da, ts).deployments, da)
  {
    var d := AppliedDeployment(s, da, ts);
    assert s.deployments[da.deployment := d] - {da.deployment} == s.deployments - {da.deployment};
  }

  lemma WithoutClears<T>(m: map<string, T>, gone: T -> bool)
    ensures Cleared(m, Without(m, gone), gone)
  {
  }

  lemma AfterDeployApplyReplaces(s: State, da: DeploymentApply, ts: Timestamp, audit: seq<AuditEvent>)
    requires WellFiled(s)
    ensures DeployApplyEffect(s, da, AfterDeployApply(s, da, ts).(audit := audit))
  {
    PruneThenUpsert(s.routes, da.routes, KeyOfRoute, RouteOf(da.deployment), DroppedRoute(da));
    PruneThenUpsert(s.tcpRoutes, da.tcpRoutes, KeyOfTcpRoute, TcpRouteOf(da.deployment), DroppedTcpRoute(da));
    AfterDeployApplyRecords(s, da, ts);
    WithoutClears(s.plans, DroppedPlan(da));
  }

  lemma AfterDeployDeleteClears(s: State, name: string, audit: seq<AuditEvent>)
    requires WellFiled(s)
    ensures DeployDeleteEffect(s, name, AfterDeployDelete(s, name).(audit := audit))
  {
    ReplicasClear(s, name);
    MinusClears(s.deployments, KeyOfDeployment, {name}, Named(name));
    WithoutClears(s.routes, RouteOf(name));
    WithoutClears(s.tcpRoutes, TcpRouteOf(name));
    WithoutClears(s.plans, PlanOf(name));
    WithoutClears(s.subnets, SubnetOf(name));
  }

  lemma ReplicasClear(s: State, name: string)
    requires WellFiled(s)
    ensures var ids := ReplicaIds(s, name);
            && Cleared(s.desired, s.desired - ids, DesiredOf(name))
            && Cleared(s.observed, s.observed - ids, ObservedOf(s, name))
            && Cleared(s.restarts, s.restarts - ids, RestartOf(s, name))
  {
  }

  lemma MinusClears<T>(m: map<string, T>, key: T -> string, ids: set<string>, gone: T -> bool)
    requires Filed(m, key) && forall k :: k in m ==> (gone(m[k]) <==> k in ids)
    ensures Cleared(m, m - ids, gone)
  {
  }

  lemma DeployApplyReplaces(s: State, cmd: Command, idx: nat)
    requires WellFiled(s) && cmd.payload.DeployApply?
    ensures DeployApplyEffect(s, cmd.payload.apply, Applied(s, cmd, idx))
  {
    CascadeThenAudit(s, cmd, idx);
    AfterDeployApplyReplaces(s, cmd.payload.apply, cmd.ts, Applied(s, cmd, idx).audit);
  }

  lemma DeployDeleteClears(s: State, cmd: Command, idx: nat)
    requires WellFiled(s) && cmd.payload.DeployDelete?
    ensures DeployDeleteEffect(s, cmd.payload.deployment, Applied(s, cmd, idx))
  {
    CascadeThenAudit(s, cmd, idx);
    AfterDeployDeleteClears(s, cmd.payload.deployment, Applied(s, cmd, idx).audit);
  }
}
