/** What the two servers of a built configuration answer, and under which certificate
    policy each domain falls. */
module CaddyServing {
  import opened Prelude
  import opened Text
  import opened Sorting
  import opened CaddyConfig
  import opened CaddyOrder
  import opened CaddyDispatch

  const CHALLENGE_PREFIX := "/.well-known/acme-challenge/"

  datatype Answer = Challenged | Redirected | Proxied(handle: seq<Handler>) | NotFound

  function SubHits(q: string): Sub -> bool { (s: Sub) => Hits(s.paths, q) }

  predicate Responds(r: HttpRoute, host: string, q: string) {
    match r
    case Challenge => HasPrefix(q, CHALLENGE_PREFIX)
    case Redirect(h) => h == host && !HasPrefix(q, CHALLENGE_PREFIX)
    case Single(h, sub) => h == host && Hits(sub.paths, q)
    case Nested(h, subs) => h == host && First(subs, SubHits(q)).Some?
    case Fallback => true
  }

  function Reply(r: HttpRoute, q: string): Answer {
    match r
    case Challenge => Challenged
    case Redirect(_) => Redirected
    case Single(_, sub) => Proxied(sub.handle)
    case Nested(_, subs) =>
      (match First(subs, SubHits(q))
       case Some(k) => Proxied(subs[k].handle)
       case None => NotFound)
    case Fallback => NotFound
  }

  function RespondsAt(host: string, q: string): HttpRoute -> bool { (r: HttpRoute) => Responds(r, host, q) }

  function Serve(routes: seq<HttpRoute>, host: string, q: string): Answer {
    match First(routes, RespondsAt(host, q))
    case Some(k) => Reply(routes[k], q)
    case None => NotFound
  }

  // ---- Finding the host ---------------------------------------------------------------------

  predicate ForHost(r: HttpRoute, h: string) {
    (r.Redirect? || r.Single? || r.Nested?) && r.host == h
  }

  ghost predicate HostsAre(routes: seq<HttpRoute>, domains: seq<string>) {
    |routes| == |domains| && NoRepeat(domains) && forall i :: 0 <= i < |routes| ==> ForHost(routes[i], domains[i])
  }

  /** Of the host routes only the host's own can respond; otherwise the fallback does. */
  lemma ServeByHost(routes: seq<HttpRoute>, domains: seq<string>, d: string, q: string)
    requires HostsAre(routes, domains)
    ensures d !in domains ==> Serve(routes + [Fallback], d, q) == NotFound
    ensures forall i :: 0 <= i < |domains| && domains[i] == d ==>
              Serve(routes + [Fallback], d, q) == if Responds(routes[i], d, q) then Reply(routes[i], q) else NotFound
  {
  }

  lemma ServeAfterChallenge(routes: seq<HttpRoute>, d: string, q: string)
    ensures Serve([Challenge] + routes, d, q) == if HasPrefix(q, CHALLENGE_PREFIX) then Challenged else Serve(routes, d, q)
  {
    FirstConcat([Challenge], routes, RespondsAt(d, q));
    if HasPrefix(q, CHALLENGE_PREFIX) {
      FirstIs([Challenge], RespondsAt(d, q), 0);
    } else {
      assert First([Challenge], RespondsAt(d, q)) == None;
    }
  }

  lemma PlainServes(domains: seq<string>, sites: seq<HttpRoute>, rs: seq<Route>, opts: Opts, d: string, q: string)
    requires HostsAre(sites, domains) && HostsAre(Plain(domains, sites, rs, opts), domains)
    requires Secured(rs, opts, d) ==> d in domains
    ensures Serve(Plain(domains, sites, rs, opts) + [Fallback], d, q) ==
            if !Secured(rs, opts, d) then Serve(sites + [Fallback], d, q)
            else if HasPrefix(q, CHALLENGE_PREFIX) then NotFound else Redirected
  {
    ServeByHost(sites, domains, d, q);
    ServeByHost(Plain(domains, sites, rs, opts), domains, d, q);
    if d in domains {
      var i :| 0 <= i < |domains| && domains[i] == d;
    }
  }

  lemma SitesHosts(n: Inputs, w: Work, cfg: Config)
    requires IsConfig(n, w, cfg)
    ensures HostsAre(w.sites, w.domains)
    ensures HostsAre(Plain(w.domains, w.sites, Flatten(w.domains, n.routes), n.opts), w.domains)
  {
    forall i | 0 <= i < |w.domains| ensures ForHost(w.sites[i], w.domains[i]) {
      assert SiteAt(n, w, i);
    }
  }

  // ---- One domain ---------------------------------------------------------------------------------

  predicate Takes(r: Route, q: string) { r.path != "" && PathHits(r.path, q) }

  /** The route a request goes to: of all that take it, the first in path order. */
  ghost predicate Chosen(rs: seq<Route>, q: string, r: Route) {
    r in rs && Takes(r, q) && forall s :: s in rs && Takes(s, q) ==> PathLe(r, s)
  }

  /** What a domain with routes `rs` owes a request: the proxy of the chosen route, else of
      its catch-all, else nothing. */
  ghost predicate Owed(rs: seq<Route>, ups: Route -> seq<string>, q: string, a: Answer) {
    if exists r :: r in rs && Takes(r, q) then
      exists r :: Chosen(rs, q, r) && a == Proxied(HandleChain(r, ups(r)))
    else if exists c :: c in rs && c.path == "" then
      exists c :: c in rs && c.path == "" && a == Proxied([Proxy(ups(c))])
    else a == NotFound
  }

  /** Where no path is shadowed, the chosen route has the longest prefix of all that take the request. */
  lemma ChosenIsLongest(rs: seq<Route>, q: string, r: Route, s: Route)
    requires Chosen(rs, q, r) && AllRegular(rs) && !Shadowed(rs) && s in rs && Takes(s, q)
    ensures |Reach(s.path)| <= |Reach(r.path)|
  {
    if |Reach(r.path)| < |Reach(s.path)| {
      FirstShadows(r, s, q);
      assert HasRoute(rs, r.path) && HasRoute(rs, s.path);
      var t := Rescued(rs, r.path, s.path);
      var x :| x in rs && x.path == t;
      RescueHits(s.path, q, t);
      assert Takes(x, q);
    }
  }

  lemma PathRoutesAre(rs: seq<Route>, sorted: seq<Route>, r: Route)
    requires multiset(sorted) == multiset(Pick(rs, HasPath, Same))
    ensures r in sorted <==> r in rs && r.path != ""
  {
    SameMembers(sorted, Pick(rs, HasPath, Same), r);
    PickMember(rs, HasPath, Same, r);
    assert HasPath(r) == (r.path != "") && Same(r) == r;
  }

  /** Sub-routes are tried in the order of the sorted paths, the catch-all last. */
  lemma NestedFirst(rs: seq<Route>, sorted: seq<Route>, ups: Route -> seq<string>, q: string)
    ensures var subs, f := PathSubs(sorted, ups) + CatchAll(rs, ups), First(sorted, RouteHits(q));
            First(subs, SubHits(q)) ==
              if f.Some? then f else if CatchAll(rs, ups) != [] then Some(|sorted|) else None
  {
    var ps, cs := PathSubs(sorted, ups), CatchAll(rs, ups);
    FirstConcat(ps, cs, SubHits(q));
    SubsHit(sorted, ups, q);
    FirstMapped(ps, sorted, SubHits(q), RouteHits(q));
    if cs != [] {
      FirstIs(cs, SubHits(q), 0);
    }
  }

  lemma SubsHit(sorted: seq<Route>, ups: Route -> seq<string>, q: string)
    ensures forall j :: 0 <= j < |sorted| ==> SubHits(q)(PathSubs(sorted, ups)[j]) == RouteHits(q)(sorted[j])
  {
  }

  lemma PathRouteWins(rs: seq<Route>, sorted: seq<Route>, ups: Route -> seq<string>, q: string, k: nat)
    requires Sorted(sorted, PathLe) && multiset(sorted) == multiset(Pick(rs, HasPath, Same))
    requires First(sorted, RouteHits(q)) == Some(k)
    ensures Owed(rs, ups, q, Proxied(HandleChain(sorted[k], ups(sorted[k]))))
  {
    var r := sorted[k];
    assert RouteHits(q)(r);
    PathRoutesAre(rs, sorted, r);
    assert Takes(r, q);
    forall s | s in rs && Takes(s, q) ensures PathLe(r, s) {
      PathRoutesAre(rs, sorted, s);
      var j :| 0 <= j < |sorted| && sorted[j] == s;
      assert RouteHits(q)(sorted[j]);
      FirstBefore(sorted, PathLe, RouteHits(q), k, j);
      LeqTotal(r.path, r.path);
    }
  }

  lemma NoPathTakes(rs: seq<Route>, sorted: seq<Route>, q: string)
    requires multiset(sorted) == multiset(Pick(rs, HasPath, Same)) && First(sorted, RouteHits(q)) == None
    ensures forall r :: r in rs ==> !Takes(r, q)
  {
    forall r | r in rs ensures !Takes(r, q) {
      PathRoutesAre(rs, sorted, r);
      if r.path != "" {
        var j :| 0 <= j < |sorted| && sorted[j] == r;
        assert !RouteHits(q)(sorted[j]);
      }
    }
  }

  lemma SiteServes(site: HttpRoute, d: string, rs: seq<Route>, ups: Route -> seq<string>, q: string)
    requires IsSiteOf(site, d, rs, ups)
    ensures Owed(rs, ups, q, if Responds(site, d, q) then Reply(site, q) else NotFound)
  {
    var sorted :| IsSite(site, d, rs, sorted, ups);
    if sorted == [] {
      LoneRoute(rs, sorted);
      NoPathTakes(rs, sorted, q);
    } else {
      NestedFirst(rs, sorted, ups, q);
      var f := First(sorted, RouteHits(q));
      if f.Some? {
        PathRouteWins(rs, sorted, ups, q, f.value);
        assert PathSubs(sorted, ups)[f.value].handle == HandleChain(sorted[f.value], ups(sorted[f.value]));
      } else {
        NoPathTakes(rs, sorted, q);
      }
    }
  }

  // ---- The two servers ------------------------------------------------------------------------------

  /** On port 443 every host gets what its routes owe, and an unknown host a 404. */
  lemma HttpsServes(n: Inputs, h: Healthy, cfg: Config, d: string, q: string)
    requires Builds(n, cfg) && IsHealthy(h, n.replicas, n.now)
    ensures Owed(RoutesOf(n.routes, d), UpstreamsOf(h, n.services), q, Serve(cfg.https, d, q))
  {
    var w :| IsConfig(n, w, cfg);
    ConfigServes(n, w, cfg, d, q);
    HealthySame(n.replicas, n.replicas, n.now, w.healthy, h);
    OwedSame(RoutesOf(n.routes, d), UpstreamsOf(w.healthy, n.services), UpstreamsOf(h, n.services), q, Serve(cfg.https, d, q));
  }

  lemma OwedSame(rs: seq<Route>, f: Route -> seq<string>, g: Route -> seq<string>, q: string, a: Answer)
    requires Owed(rs, f, q, a) && forall r :: f(r) == g(r)
    ensures Owed(rs, g, q, a)
  {
  }

  lemma ConfigServes(n: Inputs, w: Work, cfg: Config, d: string, q: string)
    requires IsConfig(n, w, cfg)
    ensures Owed(RoutesOf(n.routes, d), UpstreamsOf(w.healthy, n.services), q, Serve(cfg.https, d, q))
  {
    SitesHosts(n, w, cfg);
    ServeByHost(w.sites, w.domains, d, q);
    if d in w.domains {
      var i :| 0 <= i < |w.domains| && w.domains[i] == d;
      assert SiteAt(n, w, i);
      SiteServes(w.sites[i], d, RoutesOf(n.routes, d), UpstreamsOf(w.healthy, n.services), q);
    } else {
      assert RoutesOf(n.routes, d) == [];
    }
  }

  /** Each secured domain is a subject of exactly one policy, once, under the CA its
      staging state calls for; nothing else is a subject. */
  lemma SubjectsPartition(n: Inputs, cfg: Config, d: string)
    requires Builds(n, cfg)
    ensures Secured(n.routes, n.opts, d) <==> exists p :: p in cfg.policies && d in p.subjects
    ensures forall i, j :: 0 <= i < j < |cfg.policies| ==> d !in cfg.policies[i].subjects || d !in cfg.policies[j].subjects
    ensures forall p :: p in cfg.policies ==>
              NoRepeat(p.subjects) && (d in p.subjects ==> p.ca == if Stages(n.opts, d) then n.opts.stagingCA else CaOf(n.opts))
  {
    var w :| IsConfig(n, w, cfg);
    var rs := Flatten(w.domains, n.routes);
    FlattenContacts(w.domains, n.routes, n.opts, d);
    PoliciesPartition(cfg.policies, rs, n.opts, d);
  }

  /** On port 80 the challenge path is answered first whenever any policy exists, the
      subjects of policies redirect, and every other host is served as on 443. */
  lemma HttpServes(n: Inputs, cfg: Config, d: string, q: string)
    requires Builds(n, cfg)
    ensures Serve(cfg.http, d, q) ==
            if cfg.policies != [] && HasPrefix(q, CHALLENGE_PREFIX) then Challenged
            else if Secured(n.routes, n.opts, d) then Redirected
            else Serve(cfg.https, d, q)
  {
    var w :| IsConfig(n, w, cfg);
    var rs := Flatten(w.domains, n.routes);
    var plain := Plain(w.domains, w.sites, rs, n.opts);
    FlattenContacts(w.domains, n.routes, n.opts, d);
    SitesHosts(n, w, cfg);
    if Secured(n.routes, n.opts, d) {
      SubjectsPartition(n, cfg, d);
      SecuredDomain(n, w.domains, d);
    }
    PlainServes(w.domains, w.sites, rs, n.opts, d, q);
    HttpList(cfg, plain, d, q);
  }

  lemma HttpList(cfg: Config, plain: seq<HttpRoute>, d: string, q: string)
    requires cfg.http == (if cfg.policies != [] then [Challenge] else []) + plain + [Fallback]
    ensures Serve(cfg.http, d, q) ==
            if cfg.policies != [] && HasPrefix(q, CHALLENGE_PREFIX) then Challenged else Serve(plain + [Fallback], d, q)
  {
    if cfg.policies != [] {
      assert cfg.http == [Challenge] + (plain + [Fallback]);
      ServeAfterChallenge(plain + [Fallback], d, q);
    } else {
      assert cfg.http == plain + [Fallback];
    }
  }

  lemma SecuredDomain(n: Inputs, domains: seq<string>, d: string)
    requires IsDomains(domains, n.routes) && Secured(n.routes, n.opts, d)
    ensures d in domains
  {
    PickOfDomain(n.routes, d, d, AutoOn(d), ContactIn(n.opts));
  }

  /** The challenge route comes first on port 80 exactly when a policy exists. */
  lemma ChallengeIffPolicy(n: Inputs, cfg: Config)
    requires Builds(n, cfg)
    ensures Challenge in cfg.http <==> cfg.policies != []
    ensures cfg.policies != [] ==> cfg.http[0] == Challenge && Challenge !in cfg.http[1..]
  {
    var w :| IsConfig(n, w, cfg);
    SitesHosts(n, w, cfg);
    ChallengeLeads(cfg, Plain(w.domains, w.sites, Flatten(w.domains, n.routes), n.opts), w.domains);
  }

  lemma ChallengeLeads(cfg: Config, plain: seq<HttpRoute>, domains: seq<string>)
    requires HostsAre(plain, domains) && cfg.http == (if cfg.policies != [] then [Challenge] else []) + plain + [Fallback]
    ensures Challenge in cfg.http <==> cfg.policies != []
    ensures cfg.policies != [] ==> cfg.http[0] == Challenge && Challenge !in cfg.http[1..]
  {
    assert forall i :: 0 <= i < |plain| ==> ForHost(plain[i], domains[i]);
    if cfg.policies != [] {
      assert cfg.http[1..] == plain + [Fallback];
    }
  }

  // ---- Order reported by GetRoute ---------------------------------------------------------------------

  /** Path routes first, longest first, the catch-all last. */
  predicate ReportLe(a: Route, b: Route) {
    if (a.path == "") != (b.path == "") then a.path != "" else PathLe(a, b)
  }

  lemma ReportPreorder()
    ensures Preorder(ReportLe)
  {
    PathPreorder();
  }

  function NoPath(r: Route): bool { r.path == "" }

  datatype Report = InvalidArgument | RouteNotFound | Routes(routes: seq<Route>)

  method GetRoute(routes: seq<Route>, domain: string) returns (r: Report)
    ensures r.InvalidArgument? <==> domain == ""
    ensures r.RouteNotFound? <==> domain != "" && RoutesOf(routes, domain) == []
    ensures r.Routes? ==> Sorted(r.routes, ReportLe) && multiset(r.routes) == multiset(RoutesOf(routes, domain))
  {
    if domain == "" {
      return InvalidArgument;
    }
    var found: seq<Route> := [];
    for i := 0 to |routes|
      invariant found == RoutesOf(routes[..i], domain)
    {
      assert routes[..i + 1][..i] == routes[..i];
      if routes[i].domain == domain {
        found := found + [routes[i]];
      }
    }
    assert routes[..|routes|] == routes;
    if found == [] {
      return RouteNotFound;
    }
    ReportPreorder();
    var sorted := Sort(found, ReportLe);
    assert sorted != [];
    r := Routes(sorted);
  }

  /** GetRoute lists a domain's routes in exactly the order its site tries them. */
  lemma ReportMirrorsSite(rs: seq<Route>, d: string, report: seq<Route>, sorted: seq<Route>)
    requires UniquePaths(rs) && forall r :: r in rs ==> r.domain == d
    requires Sorted(report, ReportLe) && multiset(report) == multiset(rs)
    requires Sorted(sorted, PathLe) && multiset(sorted) == multiset(Pick(rs, HasPath, Same))
    ensures report == sorted + Pick(rs, NoPath, Same)
  {
    var tried := sorted + Pick(rs, NoPath, Same);
    PickSplits(rs, HasPath, NoPath);
    forall r | r in sorted ensures r.path != "" {
      PathRoutesAre(rs, sorted, r);
    }
    forall r | r in Pick(rs, NoPath, Same) ensures r.path == "" {
      PickMember(rs, NoPath, Same, r);
    }
    assert Sorted(tried, ReportLe);
    forall x, y | x in report && y in report && ReportLe(x, y) && ReportLe(y, x) ensures x == y {
      SameMembers(report, rs, x);
      SameMembers(report, rs, y);
      LeqAntisymmetric(x.path, y.path);
    }
    SortedUnique(report, tried, ReportLe);
  }
}
