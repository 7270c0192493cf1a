/** The replicated state machine: what every command does to the stores.

    `Applied` is the specification, a function of the state, the command and the
    raft index. The class `Machine.Machine` is the implementation: its cascades list stores in
    an unspecified order, and it is proved to reach exactly the specified state. */
module Fsm {
  import opened Prelude
  import opened Text
  import opened Entities

  datatype State = State(
    cluster: Option<ClusterMeta>,
    nodes: map<string, Node>,
    deployments: map<string, Deployment>,
    desired: map<string, ReplicaDesired>,
    observed: map<string, ReplicaObserved>,
    routes: map<string, Route>,
    tcpRoutes: map<string, TcpRoute>,
    certs: map<string, Cert>,
    certBlobs: map<string, CertBlob>,
    challenges: map<string, ChallengeToken>,
    tokens: map<string, Token>,
    joinTokens: map<string, JoinToken>,
    subnets: map<string, Subnet>,
    plans: map<string, RolloutPlan>,
    counters: map<string, ReplicaCounter>,
    restarts: map<string, RestartCounter>,
    credentials: map<string, RegistryCredential>,
    audit: seq<AuditEvent>)

  const EMPTY := State(None, map[], map[], map[], map[], map[], map[], map[], map[], map[], map[], map[], map[], map[], map[], map[], map[], [])

  /** Every entry of every store is filed under its own key. */
  ghost predicate WellFiled(s: State) {
    && Filed(s.nodes, KeyOfNode)
    && Filed(s.deployments, KeyOfDeployment)
    && Filed(s.desired, KeyOfDesired)
    && Filed(s.observed, KeyOfObserved)
    && Filed(s.routes, KeyOfRoute)
    && Filed(s.tcpRoutes, KeyOfTcpRoute)
    && Filed(s.certs, KeyOfCert)
    && Filed(s.certBlobs, KeyOfCertBlob)
    && Filed(s.challenges, KeyOfChallenge)
    && Filed(s.tokens, KeyOfToken)
    && Filed(s.joinTokens, KeyOfJoinToken)
    && Filed(s.subnets, KeyOfSubnet)
    && Filed(s.plans, KeyOfPlan)
    && Filed(s.counters, KeyOfCounter)
    && Filed(s.restarts, KeyOfRestart)
    && Filed(s.credentials, KeyOfCredential)
  }

  // ---- What a cascade removes ------------------------------------------------------

  function RouteOf(name: string): Route -> bool { (r: Route) => r.deployment == name }
  function TcpRouteOf(name: string): TcpRoute -> bool { (r: TcpRoute) => r.deployment == name }
  function DesiredOf(name: string): ReplicaDesired -> bool { (r: ReplicaDesired) => r.deployment == name }
  function PlanOf(name: string): RolloutPlan -> bool { (p: RolloutPlan) => p.deployment == name }
  function SubnetOf(name: string): Subnet -> bool { (n: Subnet) => n.deployment == name }
  function SubnetOn(host: string): Subnet -> bool { (n: Subnet) => n.host == host }
  function RouteUnder(domain: string): Route -> bool { (r: Route) => r.domain == domain }

  /** Empty fields of a SubnetFree are wildcards. */
  function SubnetMatching(deployment: string, network: string, host: string): Subnet -> bool {
    (n: Subnet) =>
      && (deployment == "" || n.deployment == deployment)
      && (network == "" || n.network == network)
      && (host == "" || n.host == host)
  }

  function DroppedPlan(da: DeploymentApply): RolloutPlan -> bool {
    (p: RolloutPlan) => p.deployment == da.deployment && forall v :: v in da.services ==> v.name != p.service
  }

  function DroppedRoute(da: DeploymentApply): Route -> bool {
    (r: Route) => r.deployment == da.deployment && forall d :: d in da.routes ==> KeyOfRoute(d) != KeyOfRoute(r)
  }

  function DroppedTcpRoute(da: DeploymentApply): TcpRoute -> bool {
    (r: TcpRoute) =>
      r.deployment == da.deployment && forall d :: d in da.tcpRoutes ==> KeyOfTcpRoute(d) != KeyOfTcpRoute(r)
  }

  function AppliedDeployment(s: State, da: DeploymentApply, ts: Timestamp): Deployment {
    Deployment(da.deployment, da.revision,
               if da.deployment in s.deployments then s.deployments[da.deployment].appliedRevision else 0,
               Active, map[], da.jacoYaml, da.composeYaml, da.services, ts, da.acmeEmail)
  }

  function AfterDeployApply(s: State, da: DeploymentApply, ts: Timestamp): (r: State)
    ensures WellFiled(s) ==> WellFiled(r)
    ensures r.subnets == s.subnets
    ensures r.certs == s.certs && r.audit == s.audit
  {
    s.(deployments := s.deployments[da.deployment := AppliedDeployment(s, da, ts)],
       plans := Without(s.plans, DroppedPlan(da)),
       routes := UpsertAll(Without(s.routes, DroppedRoute(da)), da.routes, KeyOfRoute),
       tcpRoutes := UpsertAll(Without(s.tcpRoutes, DroppedTcpRoute(da)), da.tcpRoutes, KeyOfTcpRoute))
  }

  /** The ids of the desired replicas of one deployment. */
  function ReplicaIds(s: State, name: string): set<string> {
    set k | k in s.desired && s.desired[k].deployment == name
  }

  function AfterDeployDelete(s: State, name: string): (r: State)
    ensures WellFiled(s) ==> WellFiled(r)
    ensures r.certs == s.certs && r.audit == s.audit
    ensures SubMap(r.subnets, s.subnets)
  {
    s.(routes := Without(s.routes, RouteOf(name)),
       tcpRoutes := Without(s.tcpRoutes, TcpRouteOf(name)),
       desired := s.desired - ReplicaIds(s, name),
       observed := s.observed - ReplicaIds(s, name),
       restarts := s.restarts - ReplicaIds(s, name),
       plans := Without(s.plans, PlanOf(name)),
       subnets := Without(s.subnets, SubnetOf(name)),
       deployments := s.deployments - {name})
  }

  function AfterNodeRemove(s: State, hostname: string): (r: State)
    ensures WellFiled(s) ==> WellFiled(r)
    ensures r.certs == s.certs && r.audit == s.audit
    ensures SubMap(r.subnets, s.subnets)
  {
    s.(nodes := s.nodes - {hostname}, subnets := Without(s.subnets, SubnetOn(hostname)))
  }

  function AfterRouteRemove(s: State, domain: string): (r: State)
    ensures WellFiled(s) ==> WellFiled(r)
    ensures r.subnets == s.subnets
    ensures r.certs == s.certs && r.audit == s.audit
  {
    s.(routes := Without(s.routes, RouteUnder(domain)))
  }

  function AfterSubnetFree(s: State, deployment: string, network: string, host: string): (r: State)
    ensures WellFiled(s) ==> WellFiled(r)
    ensures r.certs == s.certs && r.audit == s.audit
    ensures SubMap(r.subnets, s.subnets)
  {
    if deployment != "" && network != "" && host != "" then
      s.(subnets := s.subnets - {SubnetKey(deployment, network, host)})
    else
      s.(subnets := Without(s.subnets, SubnetMatching(deployment, network, host)))
  }

  // ---- Single-entry commands -----------------------------------------------------------

  function AfterClusterInit(s: State, p: Payload, ts: Timestamp): (r: State)
    requires p.ClusterInit?
    ensures WellFiled(s) ==> WellFiled(r)
    ensures r == s.(cluster := r.cluster, nodes := r.nodes, tokens := r.tokens)
  {
    var s1 := s.(cluster := Some(ClusterMeta(p.clusterId, p.caCert, p.caKey, ts)));
    var s2 := if p.operatorToken == [] then s1
              else s1.(tokens := s1.tokens["bootstrap" := Token("bootstrap", p.operatorToken, ts, None, false)]);
    if p.selfHostname == "" then s2
    else s2.(nodes := s2.nodes[p.selfHostname :=
               Node(p.selfHostname, p.selfAddress, [], [], Ready, map[], ts, "", 0.0, 0.0, None)])
  }

  function AfterNodePatch(s: State, p: Payload, ts: Timestamp): (r: State)
    requires p.NodeUpdateSelf? || p.NodeStatusUpdate?
    ensures WellFiled(s) ==> WellFiled(r)
    ensures r == s.(nodes := r.nodes)
  {
    if p.hostname !in s.nodes then s
    else
      var n := s.nodes[p.hostname];
      var n' := match p
        case NodeUpdateSelf(_, pubkey, addr) =>
          n.(wireguardPubkey := if pubkey == [] then n.wireguardPubkey else pubkey,
             grpcAddress := if addr == "" then n.grpcAddress else addr)
        case NodeStatusUpdate(_, status, details, cpu, memory, includePressure) =>
          var n1 := if status == UnspecifiedStatus then n else n.(status := status, statusDetails := details);
          if includePressure then n1.(cpuPressure := cpu, memoryPressure := memory, lastPressureAt := ts) else n1;
      s.(nodes := s.nodes[KeyOfNode(n') := n'])
  }

  /** A held lock is refused to another lessee until it expires; the holder may always renew. */
  predicate LockRefused(c: Cert, lessee: string, now: int) {
    c.lessee != "" && c.lessee != lessee && c.lockUntil.Some? && c.lockUntil.value > now
  }

  function AfterCertLock(certs: map<string, Cert>, name: string, lessee: string, until: Timestamp, now: int): map<string, Cert> {
    if name in certs then
      if LockRefused(certs[name], lessee, now) then certs
      else
        var c := certs[name].(lessee := lessee, lockUntil := until);
        certs[KeyOfCert(c) := c]
    else certs[name := Cert(name, [], [], None, None, lessee, until)]
  }

  function AfterCertUnlock(certs: map<string, Cert>, name: string): map<string, Cert> {
    if name in certs then
      var c := certs[name].(lessee := "", lockUntil := None);
      certs[KeyOfCert(c) := c]
    else certs
  }

  /** What a command that is not a batch does to the certificate store. */
  function CertStep(certs: map<string, Cert>, p: Payload, ts: Timestamp): (r: map<string, Cert>)
    ensures Filed(certs, KeyOfCert) ==> Filed(r, KeyOfCert)
  {
    match p
    case CertLock(name, lessee, until) => AfterCertLock(certs, name, lessee, until, AsTime(ts))
    case CertUnlock(name) => AfterCertUnlock(certs, name)
    case _ => certs
  }

  /** What a single-entry command does to the desired replicas. */
  function DesiredStep(desired: map<string, ReplicaDesired>, p: Payload, idx: nat): map<string, ReplicaDesired> {
    match p
    case DesiredUpsert(Some(r)) => desired[r.id := r.(raftIndex := idx)]
    case DesiredRemove(id) => desired - {id}
    case _ => desired
  }

  /** uint64 and int32 increments wrap. */
  function NextU64(n: nat): nat { (n + 1) % 0x1_0000_0000_0000_0000 }
  function NextI32(n: int): int { (n + 1 + 0x8000_0000) % 0x1_0000_0000 - 0x8000_0000 }

  function AfterCounters(s: State, p: Payload, ts: Timestamp): (r: State)
    requires p.CounterIncrement? || p.RestartUpdate?
    ensures WellFiled(s) ==> WellFiled(r)
    ensures r == s.(counters := r.counters, restarts := r.restarts)
  {
    match p
    case CounterIncrement(deployment, service) =>
      var k := ServiceKey(deployment, service);
      var next := if k in s.counters then NextU64(s.counters[k].nextIndex) else 1;
      s.(counters := s.counters[k := ReplicaCounter(deployment, service, next)])
    case RestartUpdate(id, Increment) =>
      var failures := if id in s.restarts then NextI32(s.restarts[id].consecutiveFailures) else 1;
      s.(restarts := s.restarts[id := RestartCounter(id, failures, ts)])
    case RestartUpdate(id, Reset) => s.(restarts := s.restarts - {id})
    case RestartUpdate(_, UnspecifiedAction) => s
  }

  function AfterDeploymentPatch(s: State, p: Payload, ts: Timestamp): (r: State)
    requires p.DeployRollback? || p.DeployStatus?
    ensures WellFiled(s) ==> WellFiled(r)
    ensures r == s.(deployments := r.deployments)
  {
    if p.deployment !in s.deployments then s
    else
      var d := s.deployments[p.deployment];
      var d' := match p
        case DeployRollback(_, revision) =>
          d.(appliedRevision := revision, previousRevision := d.appliedRevision, updatedAt := ts)
        case DeployStatus(_, status, details) => d.(status := status, statusDetails := details);
      s.(deployments := s.deployments[KeyOfDeployment(d') := d'])
  }

  function AfterDesired(s: State, p: Payload, idx: nat): (r: State)
    requires p.DesiredUpsert? || p.DesiredRemove?
    ensures WellFiled(s) ==> WellFiled(r)
    ensures r == s.(desired := r.desired, observed := r.observed, restarts := r.restarts)
    ensures r.desired == DesiredStep(s.desired, p, idx)
  {
    match p
    case DesiredUpsert(None) => s
    case DesiredUpsert(Some(r)) => s.(desired := s.desired[r.id := r.(raftIndex := idx)])
    case DesiredRemove(id) =>
      s.(desired := s.desired - {id}, observed := s.observed - {id}, restarts := s.restarts - {id})
  }

  function AfterTokens(s: State, p: Payload, ts: Timestamp): (r: State)
    requires p.TokenIssue? || p.TokenRevoke? || p.JoinTokenIssue? || p.JoinTokenConsume?
    ensures WellFiled(s) ==> WellFiled(r)
    ensures r == s.(tokens := r.tokens, joinTokens := r.joinTokens)
  {
    match p
    case TokenIssue(identity, hashed, privileged) =>
      s.(tokens := s.tokens[identity := Token(identity, hashed, ts, None, privileged)])
    case TokenRevoke(identity) =>
      if identity in s.tokens then
        var t := s.tokens[identity].(revokedAt := ts);
        s.(tokens := s.tokens[KeyOfToken(t) := t])
      else s
    case JoinTokenIssue(hashed, expires) =>
      s.(joinTokens := s.joinTokens[Hex(hashed) := JoinToken(hashed, ts, expires, None)])
    case JoinTokenConsume(hashed) =>
      if Hex(hashed) in s.joinTokens then
        var t := s.joinTokens[Hex(hashed)].(consumedAt := ts);
        s.(joinTokens := s.joinTokens[KeyOfJoinToken(t) := t])
      else s
  }

  /** "host[:port][/namespace]" in lower case, with Docker Hub's aliases folded; "" when there is no host. */
  function CanonicalRegistryKey(ref: string): string {
    var h0 := ToLower(Trim(ref, SPACE));
    var scheme := IndexFrom(h0, "://", 0);
    var h := Before(if scheme.Some? then h0[scheme.value + 3..] else h0, {'?', '#'});
    var host0 := Before(h, {'/'});
    var path := Trim(if host0 == h then "" else h[|host0| + 1..], {'/'});
    var host := if host0 in {"index.docker.io", "registry-1.docker.io", "registry.docker.io"} then "docker.io" else host0;
    if host == "" then "" else if path == "" then host else host + "/" + path
  }

  function AfterCredentials(s: State, p: Payload, ts: Timestamp): (r: State)
    requires p.CredentialUpsert? || p.CredentialRemove?
    ensures WellFiled(s) ==> WellFiled(r)
    ensures r == s.(credentials := r.credentials)
  {
    match p
    case CredentialUpsert(None) => s
    case CredentialUpsert(Some(c)) =>
      var host := CanonicalRegistryKey(c.registry);
      if host == "" then s
      else s.(credentials := s.credentials[host :=
                c.(registry := host, updatedAt := if c.updatedAt.None? then ts else c.updatedAt)])
    case CredentialRemove(registry) =>
      var host := CanonicalRegistryKey(registry);
      if host == "" then s else s.(credentials := s.credentials - {host})
  }

  function AfterBlobs(s: State, p: Payload, ts: Timestamp): (r: State)
    requires p.BlobUpsert? || p.BlobRemove? || p.ChallengeStore?
    ensures WellFiled(s) ==> WellFiled(r)
    ensures r == s.(challenges := r.challenges, certBlobs := r.certBlobs)
  {
    match p
    case BlobUpsert(None) => s
    case BlobUpsert(Some(b)) =>
      s.(certBlobs := s.certBlobs[b.key := b.(updatedAt := if b.updatedAt.None? then ts else b.updatedAt)])
    case BlobRemove(key) => if key == "" then s else s.(certBlobs := s.certBlobs - {key})
    case ChallengeStore(None) => s
    case ChallengeStore(Some(t)) => s.(challenges := s.challenges[t.token := t])
  }

  // ---- Dispatch ----------------------------------------------------------------------

  /** The commands that loop over a store listing. */
  predicate IsCascade(p: Payload) {
    p.NodeRemove? || p.DeployApply? || p.DeployDelete? || p.RouteRemove? || p.SubnetFree?
  }

  function AfterCascade(s: State, p: Payload, ts: Timestamp): (r: State)
    requires IsCascade(p)
    ensures WellFiled(s) ==> WellFiled(r)
    ensures r.certs == CertStep(s.certs, p, ts) && r.audit == s.audit
    ensures SubMap(r.subnets, s.subnets)
  {
    match p
    case NodeRemove(h) => AfterNodeRemove(s, h)
    case DeployApply(da) => AfterDeployApply(s, da, ts)
    case DeployDelete(name) => AfterDeployDelete(s, name)
    case RouteRemove(domain) => AfterRouteRemove(s, domain)
    case SubnetFree(deployment, network, host) => AfterSubnetFree(s, deployment, network, host)
  }

  /** The event an AuditAppend carries, stamped with the raft index. */
  function Carried(p: Payload, idx: nat): (r: seq<AuditEvent>)
    ensures forall e :: e in r ==> e.raftIndex == idx
  {
    if p.AuditAppend? && p.event.Some? then [p.event.value.(raftIndex := idx)] else []
  }

  /** The stores after one command that is not a batch, before its audit entry. */
  function Mutated(s: State, cmd: Command, idx: nat): (r: State)
    requires !cmd.payload.Batch?
    ensures WellFiled(s) ==> WellFiled(r)
    ensures r.certs == CertStep(s.certs, cmd.payload, cmd.ts)
    ensures !cmd.payload.SubnetAllocate? ==> SubMap(r.subnets, s.subnets)
    ensures r.audit == s.audit + Carried(cmd.payload, idx)
  {
    if IsCascade(cmd.payload) then AfterCascade(s, cmd.payload, cmd.ts) else AfterEntry(s, cmd, idx)
  }

  /** The commands that touch single entries, store by store. */
  function AfterEntry(s: State, cmd: Command, idx: nat): (r: State)
    requires !cmd.payload.Batch? && !IsCascade(cmd.payload)
    ensures WellFiled(s) ==> WellFiled(r)
    ensures r.certs == CertStep(s.certs, cmd.payload, cmd.ts)
    ensures !cmd.payload.SubnetAllocate? ==> r.subnets == s.subnets
    ensures r.desired == DesiredStep(s.desired, cmd.payload, idx)
    ensures r.audit == s.audit + Carried(cmd.payload, idx)
  {
    var p := cmd.payload;
    if p.SubnetAllocate? then AfterSubnetAllocate(s, p, cmd.ts)
    else if IsClusterEntry(p) then AfterClusterEntry(s, p, cmd.ts)
    else if IsDeploymentEntry(p) then AfterDeploymentEntry(s, p, cmd.ts)
    else if IsReplicaEntry(p) then AfterReplicaEntry(s, p, cmd.ts, idx)
    else if IsIngressEntry(p) then AfterIngressEntry(s, p, cmd.ts)
    else if IsAccessEntry(p) then AfterAccessEntry(s, p, cmd.ts)
    else if p.AuditAppend? && p.event.Some? then s.(audit := s.audit + Carried(p, idx))
    else s // a replica command, a raw cert store, an empty audit append or an unknown payload
  }

  function AfterSubnetAllocate(s: State, p: Payload, ts: Timestamp): (r: State)
    requires p.SubnetAllocate?
    ensures WellFiled(s) ==> WellFiled(r)
    ensures r == s.(subnets := r.subnets)
  {
    s.(subnets := s.subnets[SubnetKey(p.deployment, p.network, p.host) :=
         Subnet(p.deployment, p.network, p.cidr, ts, p.host)])
  }

  predicate IsClusterEntry(p: Payload) {
    p.ClusterInit? || p.NodeJoin? || p.NodeUpdateSelf? || p.NodeStatusUpdate?
  }

  function AfterClusterEntry(s: State, p: Payload, ts: Timestamp): (r: State)
    requires IsClusterEntry(p)
    ensures WellFiled(s) ==> WellFiled(r)
    ensures r == s.(cluster := r.cluster, nodes := r.nodes, tokens := r.tokens)
  {
    match p
    case ClusterInit(_, _, _, _, _, _) => AfterClusterInit(s, p, ts)
    case NodeJoin(h, address, fp, pubkey, grpc) =>
      s.(nodes := s.nodes[h := Node(h, address, fp, pubkey, Joining, map[], ts, grpc, 0.0, 0.0, None)])
    case NodeUpdateSelf(_, _, _) => AfterNodePatch(s, p, ts)
    case NodeStatusUpdate(_, _, _, _, _, _) => AfterNodePatch(s, p, ts)
  }

  predicate IsDeploymentEntry(p: Payload) {
    p.DeployRollback? || p.DeployStatus? || p.PlanUpdate? || p.RouteUpsert?
  }

  function AfterDeploymentEntry(s: State, p: Payload, ts: Timestamp): (r: State)
    requires IsDeploymentEntry(p)
    ensures WellFiled(s) ==> WellFiled(r)
    ensures r == s.(deployments := r.deployments, plans := r.plans, routes := r.routes)
  {
    match p
    case DeployRollback(_, _) => AfterDeploymentPatch(s, p, ts)
    case DeployStatus(_, _, _) => AfterDeploymentPatch(s, p, ts)
    case PlanUpdate(plan) => if plan.Some? then s.(plans := s.plans[KeyOfPlan(plan.value) := plan.value]) else s
    case RouteUpsert(r) => if r.Some? then s.(routes := s.routes[KeyOfRoute(r.value) := r.value]) else s
  }

  predicate IsReplicaEntry(p: Payload) {
    p.DesiredUpsert? || p.DesiredRemove? || p.ObservedUpdate? || p.CounterIncrement? || p.RestartUpdate?
  }

  function AfterReplicaEntry(s: State, p: Payload, ts: Timestamp, idx: nat): (r: State)
    requires IsReplicaEntry(p)
    ensures WellFiled(s) ==> WellFiled(r)
    ensures r == s.(desired := r.desired, observed := r.observed, counters := r.counters, restarts := r.restarts)
    ensures r.desired == DesiredStep(s.desired, p, idx)
  {
    match p
    case DesiredUpsert(_) => AfterDesired(s, p, idx)
    case DesiredRemove(_) => AfterDesired(s, p, idx)
    case ObservedUpdate(o) => if o.Some? then s.(observed := s.observed[o.value.id := o.value]) else s
    case CounterIncrement(_, _) => AfterCounters(s, p, ts)
    case RestartUpdate(_, _) => AfterCounters(s, p, ts)
  }

  predicate IsIngressEntry(p: Payload) {
    p.CertLock? || p.CertUnlock? || p.ChallengeStore? || p.BlobUpsert? || p.BlobRemove?
  }

  function AfterIngressEntry(s: State, p: Payload, ts: Timestamp): (r: State)
    requires IsIngressEntry(p)
    ensures WellFiled(s) ==> WellFiled(r)
    ensures r == s.(certs := r.certs, challenges := r.challenges, certBlobs := r.certBlobs)
    ensures r.certs == CertStep(s.certs, p, ts)
  {
    if p.CertLock? || p.CertUnlock? then s.(certs := CertStep(s.certs, p, ts)) else AfterBlobs(s, p, ts)
  }

  predicate IsAccessEntry(p: Payload) {
    p.TokenIssue? || p.TokenRevoke? || p.JoinTokenIssue? || p.JoinTokenConsume? || p.CredentialUpsert? || p.CredentialRemove?
  }

  function AfterAccessEntry(s: State, p: Payload, ts: Timestamp): (r: State)
    requires IsAccessEntry(p)
    ensures WellFiled(s) ==> WellFiled(r)
    ensures r == s.(tokens := r.tokens, joinTokens := r.joinTokens, credentials := r.credentials)
  {
    if p.CredentialUpsert? || p.CredentialRemove? then AfterCredentials(s, p, ts) else AfterTokens(s, p, ts)
  }

  function Bool(b: bool): string { if b then "true" else "false" }

  /** The audit entry a command leaves, if it is one of the user-visible mutations. */
  function AuditNote(p: Payload): Option<(AuditType, Details)> {
    match p
    case ClusterInit(id, _, _, _, _, _) => Some((NodeJoined, map["cluster_id" := id]))
    case NodeJoin(h, _, _, _, _) => Some((NodeJoined, map["hostname" := h]))
    case NodeRemove(h) => Some((NodeRemoved, map["hostname" := h]))
    case NodeStatusUpdate(h, status, _, _, _, _) =>
      if status == IsolationUnavailable then Some((IsolationLost, map["hostname" := h])) else None
    case DeployApply(da) =>
      Some((AuditApply, map["deployment" := da.deployment, "revision" := Itoa(da.revision)]))
    case DeployRollback(name, revision) =>
      Some((AuditRollback, map["deployment" := name, "revision" := Itoa(revision)]))
    case DeployDelete(name) => Some((AuditDelete, map["deployment" := name]))
    case TokenIssue(identity, _, privileged) =>
      Some((TokenIssued, map["identity" := identity, "allows_privileged" := Bool(privileged)]))
    case TokenRevoke(identity) => Some((TokenRevoked, map["identity" := identity]))
    case CredentialUpsert(Some(c)) =>
      var host := CanonicalRegistryKey(c.registry);
      if host == "" then None else Some((CredentialUpserted, map["registry" := host, "username" := c.username]))
    case CredentialRemove(registry) =>
      var host := CanonicalRegistryKey(registry);
      if host == "" then None else Some((CredentialRemoved, map["registry" := host]))
    case _ => None
  }

  function Noted(cmd: Command, idx: nat): (r: seq<AuditEvent>)
    ensures forall e :: e in r ==> e.raftIndex == idx
  {
    match AuditNote(cmd.payload)
    case Some(note) => [AuditEvent(idx, note.0, cmd.identity, cmd.ts, note.1)]
    case None => []
  }

  function Recorded(s: State, cmd: Command, idx: nat): (r: State)
    ensures WellFiled(s) ==> WellFiled(r)
    ensures r == s.(audit := s.audit + Noted(cmd, idx))
  {
    s.(audit := s.audit + Noted(cmd, idx))
  }

  /** The state after one command; the children of a batch share its raft index. */
  function Applied(s: State, cmd: Command, idx: nat): (r: State)
    ensures WellFiled(s) ==> WellFiled(r)
    decreases cmd, 1
  {
    if cmd.payload.Batch? then AppliedAll(s, cmd.payload.children, idx)
    else Recorded(Mutated(s, cmd, idx), cmd, idx)
  }

  function AppliedAll(s: State, cmds: seq<Command>, idx: nat): (r: State)
    ensures WellFiled(s) ==> WellFiled(r)
    decreases cmds, 0
  {
    if cmds == [] then s else AppliedAll(Applied(s, cmds[0], idx), cmds[1..], idx)
  }

  /** The state after a raft log; an entry that does not decode changes nothing. */
  function Replayed(s: State, log: seq<Entry>): (r: State)
    ensures WellFiled(s) ==> WellFiled(r)
    decreases log
  {
    if log == [] then s
    else
      var e := log[0];
      Replayed(if e.command.Some? then Applied(s, e.command.value, e.index) else s, log[1..])
  }
}
