/** The replicated entities, their store keys, and the commands that change them. */
module Entities {
  import opened Prelude
  import opened Text

  type Byte = x: int | 0 <= x < 256
  type Bytes = seq<Byte>

  /** Nanoseconds since the Unix epoch; an absent message is None. */
  type Timestamp = Option<int>

  function AsTime(ts: Timestamp): int {
    if ts.Some? then ts.value else 0
  }

  type Details = map<string, string>

  datatype NodeStatus = UnspecifiedStatus | Joining | Ready | IsolationUnavailable | DrainTimeout
  datatype DeploymentStatus = UnspecifiedDeployment | Pending | Active
  datatype ReplicaState = UnspecifiedReplica | PendingReplica | Pulling | Running | Degraded | Updating | Failed | Stopped
  datatype RolloutState = UnspecifiedRollout | InProgress | Completed | Aborted
  datatype PlacementMode = UnspecifiedPlacement | Spread | Pack | Hosts | Global
  datatype RestartAction = UnspecifiedAction | Increment | Reset

  datatype AuditType =
    | AuditApply | AuditDelete | AuditRollback | NodeJoined | NodeRemoved | TokenIssued | TokenRevoked
    | CertificateIssued | CertificateRenewed | CertificateFailed
    | IsolationReconciled | IsolationLost | BackupTaken | RestoreCompleted
    | UpgradeSucceeded | UpgradeFailed | RolloutInvariantHold
    | CredentialUpserted | CredentialRemoved | PrivilegedAdmitted | RebalanceMoved | RebalanceSkipped

  datatype ClusterMeta = ClusterMeta(clusterId: string, caCert: Bytes, caKey: Bytes, createdAt: Timestamp)
  datatype Node = Node(
    hostname: string, address: string, fingerprint: Bytes, wireguardPubkey: Bytes,
    status: NodeStatus, statusDetails: Details, joinedAt: Timestamp, grpcAddress: string,
    cpuPressure: real, memoryPressure: real, lastPressureAt: Timestamp)
  datatype ServiceSpec = ServiceSpec(
    name: string, replicas: int, placement: PlacementMode, hosts: seq<string>, networks: seq<string>)
  datatype Deployment = Deployment(
    name: string, appliedRevision: nat, previousRevision: nat, status: DeploymentStatus, statusDetails: Details,
    jacoYaml: Bytes, composeYaml: Bytes, services: seq<ServiceSpec>, updatedAt: Timestamp, acmeEmail: string)
  datatype ReplicaDesired = ReplicaDesired(
    id: string, deployment: string, service: string, index: int, host: string, image: string,
    raftIndex: nat, specHash: Bytes)
  datatype ReplicaObserved = ReplicaObserved(
    id: string, state: ReplicaState, code: string, message: string, details: Details, containerId: string,
    host: string, startedAt: Timestamp, lastHealthAt: Timestamp)
  datatype Route = Route(
    domain: string, deployment: string, service: string, port: int, tlsAuto: bool, path: string, stripPath: bool)
  datatype TcpRoute = TcpRoute(publishedPort: int, deployment: string, service: string, containerPort: int)
  datatype Cert = Cert(
    domain: string, privateKey: Bytes, chain: Bytes, notBefore: Timestamp, notAfter: Timestamp,
    lessee: string, lockUntil: Timestamp)
  datatype ChallengeToken = ChallengeToken(token: string, domain: string, keyAuth: string, expiresAt: Timestamp)
  datatype CertBlob = CertBlob(key: string, value: Bytes, updatedAt: Timestamp)
  datatype Token = Token(
    identity: string, hashedSecret: Bytes, issuedAt: Timestamp, revokedAt: Timestamp, allowsPrivileged: bool)
  datatype JoinToken = JoinToken(
    hashedSecret: Bytes, issuedAt: Timestamp, expiresAt: Timestamp, consumedAt: Timestamp)
  datatype AuditEvent = AuditEvent(
    raftIndex: nat, kind: AuditType, identity: string, ts: Timestamp, payload: Details)
  datatype Subnet = Subnet(deployment: string, network: string, cidr: string, allocatedAt: Timestamp, host: string)
  datatype RolloutPlan = RolloutPlan(
    deployment: string, service: string, targetRevision: nat, totalSteps: int, currentStep: int,
    state: RolloutState, failureReason: string, startedAt: Timestamp, lastStepAt: Timestamp)
  datatype ReplicaCounter = ReplicaCounter(deployment: string, service: string, nextIndex: nat)
  datatype RestartCounter = RestartCounter(replicaId: string, consecutiveFailures: int, lastAttemptAt: Timestamp)
  datatype RegistryCredential = RegistryCredential(
    registry: string, username: string, secret: Bytes, updatedAt: Timestamp)

  // ---- Store keys ---------------------------------------------------------------

  const SEP := "\0"

  function Hex(b: Bytes): string {
    if b == [] then "" else [HexDigit(b[0] / 16), HexDigit(b[0] % 16)] + Hex(b[1..])
  }

  function HexDigit(n: nat): char
    requires n < 16
  {
    if n < 10 then Digit(n) else ('a' as int + n - 10) as char
  }

  function RouteKey(domain: string, path: string): string { domain + SEP + path }
  function TcpRouteKey(port: int): string { Itoa(port) }
  function SubnetKey(deployment: string, network: string, host: string): string {
    deployment + SEP + network + SEP + host
  }
  function ServiceKey(deployment: string, service: string): string { deployment + SEP + service }

  function KeyOfNode(n: Node): string { n.hostname }
  function KeyOfDeployment(d: Deployment): string { d.name }
  function KeyOfDesired(r: ReplicaDesired): string { r.id }
  function KeyOfObserved(r: ReplicaObserved): string { r.id }
  function KeyOfRoute(r: Route): string { RouteKey(r.domain, r.path) }
  function KeyOfTcpRoute(r: TcpRoute): string { TcpRouteKey(r.publishedPort) }
  function KeyOfCert(c: Cert): string { c.domain }
  function KeyOfCertBlob(b: CertBlob): string { b.key }
  function KeyOfChallenge(t: ChallengeToken): string { t.token }
  function KeyOfToken(t: Token): string { t.identity }
  function KeyOfJoinToken(t: JoinToken): string { Hex(t.hashedSecret) }
  function KeyOfSubnet(s: Subnet): string { SubnetKey(s.deployment, s.network, s.host) }
  function KeyOfPlan(p: RolloutPlan): string { ServiceKey(p.deployment, p.service) }
  function KeyOfCounter(c: ReplicaCounter): string { ServiceKey(c.deployment, c.service) }
  function KeyOfRestart(c: RestartCounter): string { c.replicaId }
  function KeyOfCredential(c: RegistryCredential): string { c.registry }

  // ---- Commands -----------------------------------------------------------------

  datatype DeploymentApply = DeploymentApply(
    deployment: string, revision: nat, jacoYaml: Bytes, composeYaml: Bytes, services: seq<ServiceSpec>,
    routes: seq<Route>, tcpRoutes: seq<TcpRoute>, acmeEmail: string)

  datatype Payload =
    | ClusterInit(clusterId: string, caCert: Bytes, caKey: Bytes, operatorToken: Bytes, selfHostname: string, selfAddress: string)
    | NodeJoin(hostname: string, address: string, fingerprint: Bytes, wireguardPubkey: Bytes, grpcAddress: string)
    | NodeRemove(hostname: string)
    | NodeUpdateSelf(hostname: string, wireguardPubkey: Bytes, grpcAddress: string)
    | NodeStatusUpdate(hostname: string, status: NodeStatus, details: Details, cpu: real, memory: real, includePressure: bool)
    | DeployApply(apply: DeploymentApply)
    | DeployRollback(deployment: string, revision: nat)
    | DeployDelete(deployment: string)
    | DeployStatus(deployment: string, deployStatus: DeploymentStatus, details: Details)
    | DesiredUpsert(desired: Option<ReplicaDesired>)
    | DesiredRemove(id: string)
    | ObservedUpdate(observed: Option<ReplicaObserved>)
    | ReplicaCommandIssue
    | PlanUpdate(plan: Option<RolloutPlan>)
    | CounterIncrement(deployment: string, service: string)
    | RestartUpdate(replicaId: string, action: RestartAction)
    | RouteUpsert(route: Option<Route>)
    | RouteRemove(domain: string)
    | CertStore
    | CertLock(name: string, lessee: string, until: Timestamp)
    | CertUnlock(name: string)
    | ChallengeStore(challenge: Option<ChallengeToken>)
    | BlobUpsert(blob: Option<CertBlob>)
    | BlobRemove(key: string)
    | SubnetAllocate(deployment: string, network: string, cidr: string, host: string)
    | SubnetFree(deployment: string, network: string, host: string)
    | TokenIssue(identity: string, hashedSecret: Bytes, allowsPrivileged: bool)
    | TokenRevoke(identity: string)
    | JoinTokenIssue(hashedSecret: Bytes, expiresAt: Timestamp)
    | JoinTokenConsume(hashedSecret: Bytes)
    | AuditAppend(event: Option<AuditEvent>)
    | Batch(children: seq<Command>)
    | CredentialUpsert(credential: Option<RegistryCredential>)
    | CredentialRemove(registry: string)
    | UnknownPayload

  datatype Command = Command(ts: Timestamp, identity: string, payload: Payload)

  /** One raft log entry; bytes that do not decode carry no command. */
  datatype Entry = Entry(index: nat, command: Option<Command>)
}
