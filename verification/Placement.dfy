/** Which hosts a service may use, which one a new replica gets, and replica ids. */
module Placement {
  import opened Prelude
  import opened Text
  import opened Sorting
  import opened Entities

  predicate Eligible(svc: ServiceSpec, n: Node) {
    n.status == Ready && (svc.placement.Hosts? && svc.hosts != [] ==> n.hostname in svc.hosts)
  }

  function EligibleTo(svc: ServiceSpec): Node -> bool { (n: Node) => Eligible(svc, n) }
  function HostnameOf(n: Node): string { n.hostname }

  /** The ready nodes a service may be placed on, pinned ones only under HOSTS, sorted. */
  method EligibleHosts(svc: ServiceSpec, nodes: seq<Node>) returns (r: seq<string>)
    ensures Sorted(r, Leq) && multiset(r) == multiset(Pick(nodes, EligibleTo(svc), HostnameOf))
  {
    var hosts: seq<string> := [];
    for i := 0 to |nodes|
      invariant hosts == Pick(nodes[..i], EligibleTo(svc), HostnameOf)
    {
      assert nodes[..i + 1][..i] == nodes[..i];
      if nodes[i].status == Ready && (!svc.placement.Hosts? || svc.hosts == [] || nodes[i].hostname in svc.hosts) {
        hosts := hosts + [nodes[i].hostname];
      }
    }
    assert nodes[..|nodes|] == nodes;
    r := SortStrings(hosts);
  }

  lemma EligibleArePinned(svc: ServiceSpec, nodes: seq<Node>, r: seq<string>, h: string)
    requires multiset(r) == multiset(Pick(nodes, EligibleTo(svc), HostnameOf)) && h in r
    ensures svc.placement.Hosts? && svc.hosts != [] ==> h in svc.hosts
    ensures exists n :: n in nodes && n.hostname == h && n.status == Ready
  {
    SameMembers(r, Pick(nodes, EligibleTo(svc), HostnameOf), h);
    PickMember(nodes, EligibleTo(svc), HostnameOf, h);
  }

  function CountOn(counts: map<string, nat>, h: string): nat {
    if h in counts then counts[h] else 0
  }

  /** The host with the fewest replicas, the first by name among those. */
  ghost predicate IsPackHost(eligible: seq<string>, counts: map<string, nat>, h: string) {
    && h in eligible
    && forall g :: g in eligible ==>
         CountOn(counts, h) < CountOn(counts, g) || (CountOn(counts, h) == CountOn(counts, g) && Leq(h, g))
  }

  function PackHost(eligible: seq<string>, counts: map<string, nat>): (h: string)
    requires eligible != []
    ensures IsPackHost(eligible, counts, h)
  {
    var n := |eligible| - 1;
    assert eligible == eligible[..n] + [eligible[n]];
    if n == 0 then
      LeqTotal(eligible[0], eligible[0]);
      eligible[0]
    else
      var best, h := PackHost(eligible[..n], counts), eligible[n];
      var c, bestCount := CountOn(counts, h), CountOn(counts, best);
      LeqTotal(best, h);
      LeqTotal(h, h);
      if c < bestCount || (c == bestCount && h != best && Leq(h, best)) then
        BetterPack(eligible[..n], counts, best, h);
        h
      else best
  }

  /** The same choice, as a scan that keeps the best host so far. */
  method PickPackHost(eligible: seq<string>, counts: map<string, nat>) returns (best: string)
    requires eligible != []
    ensures best == PackHost(eligible, counts)
  {
    best := eligible[0];
    var bestCount := CountOn(counts, best);
    assert eligible[..1] == [eligible[0]];
    for i := 1 to |eligible|
      invariant best == PackHost(eligible[..i], counts) && bestCount == CountOn(counts, best)
    {
      var h := eligible[i];
      assert eligible[..i + 1][..i] == eligible[..i];
      var c := CountOn(counts, h);
      if c < bestCount || (c == bestCount && h != best && Leq(h, best)) {
        best, bestCount := h, c;
      }
    }
    assert eligible[..|eligible|] == eligible;
  }

  lemma BetterPack(eligible: seq<string>, counts: map<string, nat>, best: string, h: string)
    requires IsPackHost(eligible, counts, best)
    requires CountOn(counts, h) < CountOn(counts, best) || (CountOn(counts, h) == CountOn(counts, best) && Leq(h, best))
    ensures IsPackHost(eligible + [h], counts, h)
  {
    LeqTotal(h, h);
    forall g | g in eligible
      ensures CountOn(counts, h) < CountOn(counts, g) || (CountOn(counts, h) == CountOn(counts, g) && Leq(h, g))
    {
      if Leq(h, best) && Leq(best, g) {
        LeqTransitive(h, best, g);
      }
    }
  }

  /** The host for one replica index; `hash` is the FNV-1a hash SPREAD uses. None when
      HOSTS cannot give every replica a host of its own, or nothing is eligible. */
  function PlaceReplica(deployment: string, svc: ServiceSpec, eligible: seq<string>, i: nat, counts: map<string, nat>, hash: (string, string, nat) -> nat): (r: Option<string>)
    ensures r.None? <==> eligible == [] || (svc.placement.Hosts? && svc.replicas > |eligible|)
    ensures r.Some? ==> r.value in eligible
    ensures r.Some? && svc.placement.Pack? ==> IsPackHost(eligible, counts, r.value)
  {
    if eligible == [] then None
    else match svc.placement
      case Hosts => if svc.replicas > |eligible| then None else Some(eligible[i % |eligible|])
      case Pack => Some(PackHost(eligible, counts))
      case _ => Some(eligible[hash(deployment, svc.name, i) % |eligible|])
  }

  /** Under HOSTS no two replicas of a service share a host. */
  lemma PinnedApart(deployment: string, svc: ServiceSpec, eligible: seq<string>, i: nat, j: nat, counts: map<string, nat>, hash: (string, string, nat) -> nat)
    requires svc.placement.Hosts? && NoRepeat(eligible) && i < j < svc.replicas
    ensures var a, b := PlaceReplica(deployment, svc, eligible, i, counts, hash), PlaceReplica(deployment, svc, eligible, j, counts, hash);
            a.Some? ==> b.Some? && a.value != b.value
  {
    if svc.replicas <= |eligible| {
      assert i % |eligible| == i && j % |eligible| == j;
    }
  }

  function ReplicaID(deployment: string, service: string, i: nat): string {
    deployment + "-" + service + "-" + Itoa(i)
  }

  function HostChar(c: char): char {
    if 'a' <= c <= 'z' || 'A' <= c <= 'Z' || '0' <= c <= '9' || c == '_' || c == '.' || c == '-' then c else '-'
  }

  function ReplicaIDForHost(deployment: string, service: string, host: string): string {
    deployment + "-" + service + "-" + seq(|host|, i requires 0 <= i < |host| => HostChar(host[i]))
  }
}
