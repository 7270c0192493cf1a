/** The configuration does not depend on the order in which the stores were listed,
    exactly when no domain has two contacts. The reloader's comparison relies on it. */
module CaddyOrder {
  import opened Prelude
  import opened Sorting
  import opened CaddyConfig

  ghost predicate SameUpToOrder(a: Inputs, b: Inputs) {
    && multiset(a.routes) == multiset(b.routes)
    && multiset(a.tcp) == multiset(b.tcp)
    && multiset(a.replicas) == multiset(b.replicas)
    && a.services == b.services && a.opts == b.opts && a.now == b.now
  }

  /** What the stores' keys give: a route per (domain, path), a TCP route per port. */
  ghost predicate UniquePaths(rs: seq<Route>) {
    forall r, s :: r in rs && s in rs && r.domain == s.domain && r.path == s.path ==> r == s
  }

  ghost predicate UniquePorts(tcp: seq<TcpRoute>) {
    forall r, s :: r in tcp && s in tcp && r.publishedPort == s.publishedPort ==> r == s
  }

  /** All tls:auto routes of one domain have the same effective contact. */
  ghost predicate OneContact(n: Inputs) {
    n.opts.acmeEnabled ==>
      forall r, s :: r in n.routes && s in n.routes && r.tlsAuto && s.tlsAuto && r.domain == s.domain ==>
        ContactIn(n.opts)(r) == ContactIn(n.opts)(s)
  }

  // ---- Order of lists ----------------------------------------------------------------------

  lemma OneOrder(a: seq<string>, b: seq<string>)
    requires Sorted(a, Leq) && Sorted(b, Leq) && NoRepeat(a) && NoRepeat(b) && forall x :: x in a <==> x in b
    ensures a == b
  {
    SameSetSameBag(a, b);
    LeqTieFree(a);
    SortedUnique(a, b, Leq);
  }

  lemma OneKeyOrder(a: seq<PolicyKey>, b: seq<PolicyKey>)
    requires Sorted(a, KeyLe) && Sorted(b, KeyLe) && NoRepeat(a) && NoRepeat(b) && forall x :: x in a <==> x in b
    ensures a == b
  {
    SameSetSameBag(a, b);
    forall x, y | x in a && y in a && KeyLe(x, y) && KeyLe(y, x) ensures x == y {
      LeqAntisymmetric(x.email, y.email);
    }
    SortedUnique(a, b, KeyLe);
  }

  // ---- Upstreams ----------------------------------------------------------------------------

  ghost predicate SameHealthy(g: Healthy, h: Healthy) {
    forall key :: IdsAt(g, key) == IdsAt(h, key)
  }

  lemma HealthySame(a: seq<Replica>, b: seq<Replica>, now: int, g: Healthy, h: Healthy)
    requires multiset(a) == multiset(b) && IsHealthy(g, a, now) && IsHealthy(h, b, now)
    ensures SameHealthy(g, h)
  {
    forall key ensures IdsAt(g, key) == IdsAt(h, key) {
      PickPermutes(a, b, EligibleFor(now, key), IdOf);
      LeqTieFree(IdsAt(g, key));
      SortedUnique(IdsAt(g, key), IdsAt(h, key), Leq);
    }
  }

  lemma {:induction false} ServersSame(s: seq<TcpRoute>, g: Healthy, h: Healthy, services: Services)
    requires SameHealthy(g, h)
    ensures Servers(s, g, services) == Servers(s, h, services)
    decreases s
  {
    if s != [] {
      ServersSame(s[..|s| - 1], g, h, services);
    }
  }

  lemma Layer4Same(a: map<string, Layer4>, b: map<string, Layer4>, ta: seq<TcpRoute>, tb: seq<TcpRoute>, g: Healthy, h: Healthy, services: Services)
    requires AreServers(a, ta, g, services) && AreServers(b, tb, h, services)
    requires SameHealthy(g, h) && multiset(ta) == multiset(tb) && UniquePorts(ta)
    ensures a == b
  {
    var sa :| IsServers(a, ta, sa, g, services);
    var sb :| IsServers(b, tb, sb, h, services);
    forall x, y | x in sa && y in sa && PortLe(x, y) && PortLe(y, x) ensures x == y {
      SameMembers(sa, ta, x);
      SameMembers(sa, ta, y);
    }
    SortedUnique(sa, sb, PortLe);
    ServersSame(sa, g, h, services);
  }

  // ---- Sites ----------------------------------------------------------------------------------

  lemma SortedPathsSame(a: seq<Route>, b: seq<Route>, pa: seq<Route>, pb: seq<Route>, d: string)
    requires multiset(a) == multiset(b) && UniquePaths(a) && forall r :: r in a ==> r.domain == d
    requires Sorted(pa, PathLe) && multiset(pa) == multiset(Pick(a, HasPath, Same))
    requires Sorted(pb, PathLe) && multiset(pb) == multiset(Pick(b, HasPath, Same))
    ensures pa == pb
  {
    PickPermutes(a, b, HasPath, Same);
    forall x, y | x in pa && y in pa && PathLe(x, y) && PathLe(y, x) ensures x == y {
      LeqAntisymmetric(x.path, y.path);
      PickedFrom(a, pa, x);
      PickedFrom(a, pa, y);
    }
    SortedUnique(pa, pb, PathLe);
  }

  lemma PickedFrom(a: seq<Route>, pa: seq<Route>, x: Route)
    requires multiset(pa) == multiset(Pick(a, HasPath, Same)) && x in pa
    ensures x in a && x.path != ""
  {
    SameMembers(pa, Pick(a, HasPath, Same), x);
    PickMember(a, HasPath, Same, x);
  }

  lemma CatchAllSame(a: seq<Route>, b: seq<Route>, f: Route -> seq<string>, g: Route -> seq<string>, d: string)
    requires multiset(a) == multiset(b) && UniquePaths(a) && forall r :: r in a ==> r.domain == d
    requires forall r :: f(r) == g(r)
    ensures CatchAll(a, f) == CatchAll(b, g)
  {
    var x, y := LastWith(a, PathOf, ""), LastWith(b, PathOf, "");
    if x.Some? {
      SameMembers(a, b, x.value);
    }
    if y.Some? {
      SameMembers(a, b, y.value);
    }
  }

  lemma SiteSame(sa: HttpRoute, sb: HttpRoute, d: string, a: seq<Route>, b: seq<Route>, f: Route -> seq<string>, g: Route -> seq<string>)
    requires IsSiteOf(sa, d, a, f) && IsSiteOf(sb, d, b, g)
    requires multiset(a) == multiset(b) && UniquePaths(a) && forall r :: r in a ==> r.domain == d
    requires forall r :: f(r) == g(r)
    ensures sa == sb
  {
    var pa :| IsSite(sa, d, a, pa, f);
    var pb :| IsSite(sb, d, b, pb, g);
    SortedPathsSame(a, b, pa, pb, d);
    if pa == [] {
      LoneRoute(a, pa);
      LoneRoute(b, pb);
      SameMembers(a, b, b[0]);
      assert a[0] == b[0];
    } else {
      CatchAllSame(a, b, f, g, d);
      assert PathSubs(pa, f) == PathSubs(pb, g);
    }
  }

  /** Without path routes, the first route is a catch-all. */
  lemma LoneRoute(a: seq<Route>, pa: seq<Route>)
    requires a != [] && pa == [] && multiset(pa) == multiset(Pick(a, HasPath, Same))
    ensures a[0] in a && a[0].path == ""
  {
  }

  lemma RoutesOfDomain(routes: seq<Route>, d: string)
    ensures forall r :: r in RoutesOf(routes, d) ==> r in routes && r.domain == d
  {
    forall r | r in RoutesOf(routes, d) ensures r in routes && r.domain == d {
      PickMember(routes, OnDomain(d), Same, r);
    }
  }

  lemma DomainsSame(a: seq<Route>, b: seq<Route>, da: seq<string>, db: seq<string>)
    requires multiset(a) == multiset(b) && IsDomains(da, a) && IsDomains(db, b)
    ensures da == db
  {
    forall d ensures d in da <==> d in db {
      PickPermutes(a, b, OnDomain(d), Same);
      SameLength(RoutesOf(a, d), RoutesOf(b, d));
    }
    OneOrder(da, db);
  }

  lemma SitesSame(m: Inputs, n: Inputs, v: Work, w: Work)
    requires SameUpToOrder(m, n) && UniquePaths(m.routes) && v.domains == w.domains
    requires AreSites(m, v) && AreSites(n, w) && SameHealthy(v.healthy, w.healthy)
    ensures v.sites == w.sites
  {
    forall i | 0 <= i < |v.domains| ensures v.sites[i] == w.sites[i] {
      var d := v.domains[i];
      assert SiteAt(m, v, i) && SiteAt(n, w, i);
      PickPermutes(m.routes, n.routes, OnDomain(d), Same);
      RoutesOfDomain(m.routes, d);
      SiteSame(v.sites[i], w.sites[i], d, RoutesOf(m.routes, d), RoutesOf(n.routes, d),
               UpstreamsOf(v.healthy, m.services), UpstreamsOf(w.healthy, n.services));
    }
  }

  // ---- Policies --------------------------------------------------------------------------------

  /** Grouping the routes by domain changes no domain's list of contacts. */
  lemma FlattenContacts(domains: seq<string>, routes: seq<Route>, opts: Opts, d: string)
    requires IsDomains(domains, routes)
    ensures Contacts(Flatten(domains, routes), opts, d) == Contacts(routes, opts, d)
  {
    FlattenPick(domains, routes, d, AutoOn(d), ContactIn(opts));
    if d !in domains {
      PickOfDomain(routes, d, d, AutoOn(d), ContactIn(opts));
      assert RoutesOf(routes, d) == [];
    }
  }

  lemma ContactsSame(m: Inputs, n: Inputs, d: string)
    requires SameUpToOrder(m, n) && OneContact(m) && m.opts.acmeEnabled
    ensures Contacts(m.routes, m.opts, d) == [] <==> Contacts(n.routes, n.opts, d) == []
    ensures Contacts(m.routes, m.opts, d) != [] ==> Contacts(m.routes, m.opts, d)[0] == Contacts(n.routes, n.opts, d)[0]
  {
    var a, b := Contacts(m.routes, m.opts, d), Contacts(n.routes, n.opts, d);
    PickPermutes(m.routes, n.routes, AutoOn(d), ContactIn(m.opts));
    SameLength(a, b);
    if a != [] {
      SameMembers(a, b, b[0]);
      PickMember(m.routes, AutoOn(d), ContactIn(m.opts), a[0]);
      PickMember(m.routes, AutoOn(d), ContactIn(m.opts), b[0]);
    }
  }

  lemma KeysSame(m: Inputs, n: Inputs, dm: seq<string>, dn: seq<string>, d: string)
    requires SameUpToOrder(m, n) && OneContact(m) && IsDomains(dm, m.routes) && IsDomains(dn, n.routes)
    ensures var a, b := Flatten(dm, m.routes), Flatten(dn, n.routes);
            && Secured(a, m.opts, d) == Secured(b, n.opts, d)
            && (Secured(a, m.opts, d) ==> KeyFor(a, m.opts, d) == KeyFor(b, n.opts, d))
  {
    if m.opts.acmeEnabled {
      FlattenContacts(dm, m.routes, m.opts, d);
      FlattenContacts(dn, n.routes, n.opts, d);
      ContactsSame(m, n, d);
    }
  }

  /** Two selections of domains and keys that agree. */
  ghost predicate Agree(a: seq<Route>, b: seq<Route>, opts: Opts) {
    forall d :: Secured(a, opts, d) == Secured(b, opts, d) && (Secured(a, opts, d) ==> KeyFor(a, opts, d) == KeyFor(b, opts, d))
  }

  lemma KeyFromPolicy(ps: seq<Policy>, keys: seq<PolicyKey>, a: seq<Route>, b: seq<Route>, opts: Opts, keys': seq<PolicyKey>, ps': seq<Policy>)
    requires IsPolicies(ps, keys, a, opts) && IsPolicies(ps', keys', b, opts) && Agree(a, b, opts)
    ensures forall k :: k in keys ==> k in keys'
  {
    forall k | k in keys ensures k in keys' {
      var i :| 0 <= i < |keys| && keys[i] == k;
      assert IsPolicy(ps[i], keys[i], a, opts);
      var d := ps[i].subjects[0];
      assert d in ps[i].subjects;
    }
  }

  lemma PoliciesSame(pa: seq<Policy>, pb: seq<Policy>, a: seq<Route>, b: seq<Route>, opts: Opts)
    requires ArePolicies(pa, a, opts) && ArePolicies(pb, b, opts) && Agree(a, b, opts)
    ensures pa == pb
  {
    var ka :| IsPolicies(pa, ka, a, opts);
    var kb :| IsPolicies(pb, kb, b, opts);
    KeyFromPolicy(pa, ka, a, b, opts, kb, pb);
    KeyFromPolicy(pb, kb, b, a, opts, ka, pa);
    OneKeyOrder(ka, kb);
    forall i | 0 <= i < |ka| ensures pa[i] == pb[i] {
      assert IsPolicy(pa[i], ka[i], a, opts) && IsPolicy(pb[i], kb[i], b, opts);
      OneOrder(pa[i].subjects, pb[i].subjects);
    }
  }

  // ---- The theorem and its converse ---------------------------------------------------------------

  /** Two builds from the same stores, listed in any order, give the same configuration. */
  lemma ConfigIgnoresOrder(m: Inputs, n: Inputs, a: Config, b: Config)
    requires SameUpToOrder(m, n) && Builds(m, a) && Builds(n, b)
    requires UniquePaths(m.routes) && UniquePorts(m.tcp) && OneContact(m)
    ensures a == b
  {
    var v :| IsConfig(m, v, a);
    var w :| IsConfig(n, w, b);
    HealthySame(m.replicas, n.replicas, m.now, v.healthy, w.healthy);
    DomainsSame(m.routes, n.routes, v.domains, w.domains);
    SitesSame(m, n, v, w);
    Layer4Same(a.layer4, b.layer4, m.tcp, n.tcp, v.healthy, w.healthy, m.services);
    var ra, rb := Flatten(v.domains, m.routes), Flatten(w.domains, n.routes);
    forall d ensures Secured(ra, m.opts, d) == Secured(rb, m.opts, d) && (Secured(ra, m.opts, d) ==> KeyFor(ra, m.opts, d) == KeyFor(rb, m.opts, d)) {
      KeysSame(m, n, v.domains, w.domains, d);
    }
    PoliciesSame(a.policies, b.policies, ra, rb, m.opts);
    PlainSame(v.domains, v.sites, ra, rb, m.opts);
  }

  lemma PlainSame(domains: seq<string>, sites: seq<HttpRoute>, a: seq<Route>, b: seq<Route>, opts: Opts)
    requires |domains| == |sites| && Agree(a, b, opts)
    ensures Plain(domains, sites, a, opts) == Plain(domains, sites, b, opts)
  {
  }

  /** The routes with the `i`th moved to the front. */
  function Fronted(routes: seq<Route>, i: nat): seq<Route>
    requires i < |routes|
  {
    [routes[i]] + (routes[..i] + routes[i + 1..])
  }

  lemma FrontedPermutes(routes: seq<Route>, i: nat)
    requires i < |routes|
    ensures multiset(Fronted(routes, i)) == multiset(routes)
  {
    assert routes == routes[..i] + [routes[i]] + routes[i + 1..];
  }

  /** Each secured domain is a subject of exactly one policy, under its own key. */
  lemma PoliciesPartition(policies: seq<Policy>, rs: seq<Route>, opts: Opts, d: string)
    requires ArePolicies(policies, rs, opts)
    ensures Secured(rs, opts, d) <==> exists p :: p in policies && d in p.subjects
    ensures forall i, j :: 0 <= i < j < |policies| ==> d !in policies[i].subjects || d !in policies[j].subjects
    ensures forall p :: p in policies ==> NoRepeat(p.subjects)
    ensures forall p :: p in policies && d in p.subjects ==>
              p.email == KeyFor(rs, opts, d).email && p.ca == if Stages(opts, d) then opts.stagingCA else CaOf(opts)
  {
    var keys :| IsPolicies(policies, keys, rs, opts);
    if Secured(rs, opts, d) {
      var i :| 0 <= i < |keys| && keys[i] == KeyFor(rs, opts, d);
      assert IsPolicy(policies[i], keys[i], rs, opts);
    }
    forall i | 0 <= i < |policies| ensures IsPolicy(policies[i], keys[i], rs, opts) {}
  }

  /** Whichever contact comes first decides the policy of its domain. */
  lemma FirstContact(n: Inputs, w: Work, cfg: Config, r: Route, rest: seq<Route>)
    requires n.opts.acmeEnabled && r.tlsAuto && n.routes == [r] + rest && IsConfig(n, w, cfg)
    ensures exists p :: p in cfg.policies && r.domain in p.subjects
    ensures forall p :: p in cfg.policies && r.domain in p.subjects ==> p.email == ContactIn(n.opts)(r)
  {
    var d, rs := r.domain, Flatten(w.domains, n.routes);
    FlattenContacts(w.domains, n.routes, n.opts, d);
    PickConcat([r], rest, AutoOn(d), ContactIn(n.opts));
    PickOne(r, AutoOn(d), ContactIn(n.opts));
    PoliciesPartition(cfg.policies, rs, n.opts, d);
  }

  /** The converse: with two contacts for one domain, two listings of the same routes
      give different configurations, so the condition is exact. */
  lemma ContactClashShows(n: Inputs, i: nat, j: nat, a: Config, b: Config)
    requires n.opts.acmeEnabled && i < |n.routes| && j < |n.routes|
    requires n.routes[i].tlsAuto && n.routes[j].tlsAuto && n.routes[i].domain == n.routes[j].domain
    requires ContactIn(n.opts)(n.routes[i]) != ContactIn(n.opts)(n.routes[j])
    requires Builds(n.(routes := Fronted(n.routes, i)), a) && Builds(n.(routes := Fronted(n.routes, j)), b)
    ensures SameUpToOrder(n.(routes := Fronted(n.routes, i)), n)
    ensures SameUpToOrder(n.(routes := Fronted(n.routes, j)), n)
    ensures a != b
  {
    FrontedPermutes(n.routes, i);
    FrontedPermutes(n.routes, j);
    var v :| IsConfig(n.(routes := Fronted(n.routes, i)), v, a);
    var w :| IsConfig(n.(routes := Fronted(n.routes, j)), w, b);
    FirstContact(n.(routes := Fronted(n.routes, i)), v, a, n.routes[i], n.routes[..i] + n.routes[i + 1..]);
    FirstContact(n.(routes := Fronted(n.routes, j)), w, b, n.routes[j], n.routes[..j] + n.routes[j + 1..]);
  }
}
