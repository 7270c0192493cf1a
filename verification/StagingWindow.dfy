/** Which domains a node renders under the staging CA, and when it stops doing so. */
module StagingWindow {
  import opened Sorting
  import E = Entities
  import opened StageFirst
  import opened StageFirstRuns
  import C = CaddyConfig
  import S = CaddyServing

  ghost predicate IsAuto(routes: seq<E.Route>, d: string) {
    exists i :: 0 <= i < |routes| && routes[i].tlsAuto && routes[i].domain == d
  }

  /** The domains with a tls:auto route, each once. */
  method TlsAutoDomains(routes: seq<E.Route>) returns (r: seq<string>)
    ensures NoRepeat(r) && forall d :: d in r <==> IsAuto(routes, d)
  {
    r := [];
    var seen := {};
    for i := 0 to |routes|
      invariant NoRepeat(r) && (forall d :: d in seen <==> d in r)
      invariant forall d :: d in r ==> IsAuto(routes, d)
      invariant forall j :: 0 <= j < i && routes[j].tlsAuto ==> routes[j].domain in r
    {
      if routes[i].tlsAuto && routes[i].domain !in seen {
        seen := seen + {routes[i].domain};
        r := r + [routes[i].domain];
      }
    }
  }

  /** Domains with a staging certificate and no prod certificate in replicated state. */
  method StagingFromState(routes: seq<E.Route>, issued: string -> bool, staged: string -> bool) returns (r: set<string>)
    ensures forall d :: d in r <==> IsAuto(routes, d) && !issued(d) && staged(d)
  {
    var auto := TlsAutoDomains(routes);
    r := {};
    for i := 0 to |auto|
      invariant forall d :: d in r <==> d in auto[..i] && !issued(d) && staged(d)
    {
      if !issued(auto[i]) && staged(auto[i]) {
        r := r + {auto[i]};
      }
    }
    assert auto[..|auto|] == auto;
  }

  /** What a node's builder renders as staging: the leader adds the controller's own set. */
  ghost predicate IsBuilderStaging(r: set<string>, routes: seq<E.Route>, issued: string -> bool, staged: string -> bool, leader: bool, own: set<string>) {
    forall d :: d in r <==> (IsAuto(routes, d) && !issued(d) && staged(d)) || (leader && d in own)
  }

  method StagingForBuilder(routes: seq<E.Route>, issued: string -> bool, staged: string -> bool, leader: bool, own: set<string>)
    returns (r: set<string>)
    ensures IsBuilderStaging(r, routes, issued, staged, leader, own)
  {
    r := StagingFromState(routes, issued, staged);
    if leader {
      r := r + own;
    }
  }

  /** Once a domain has a prod certificate, every node renders it under the prod CA: a
      follower at once, the leader after its controller's next pass. */
  lemma IssuedIsProdEverywhere(
    n: C.Inputs, cfg: C.Config, routes: seq<E.Route>, issued: string -> bool, staged: string -> bool, leader: bool,
    settings: Settings, books: Books, now: int, domains: seq<string>, sights: seq<Sighting>, d: string)
    requires C.Builds(n, cfg) && issued(d)
    requires |domains| == |sights|
    requires forall i :: 0 <= i < |domains| ==> sights[i].issued == sights[i].issuedAgain == issued(domains[i])
    requires IsBuilderStaging(n.opts.staging, routes, issued, staged, leader, Reconciled(settings, books, now, domains, sights).books.staging)
    ensures forall p :: p in cfg.policies && d in p.subjects ==> p.ca == C.CaOf(n.opts)
  {
    if d in Reconciled(settings, books, now, domains, sights).books.staging {
      IssuedLeavesStaging(settings, books, now, domains, sights, issued, d);
    }
    S.SubjectsPartition(n, cfg, d);
  }
}
