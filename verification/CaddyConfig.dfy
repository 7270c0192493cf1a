/** The ingress builder: the Caddy configuration as a tree, and the loops that build
    it from routes, replicas and options. Attributes that are the same constant in
    every configuration are left out of the tree. */
module CaddyConfig {
  import opened Prelude
  import opened Text
  import opened Sorting

  const HEALTH_FRESHNESS := 10_000_000_000
  const PROD_CA := "https://acme-v02.api.letsencrypt.org/directory"

  datatype Route = Route(
    domain: string, deployment: string, service: string, port: int, tlsAuto: bool, path: string, stripPath: bool,
    acmeEmail: string)
  datatype TcpRoute = TcpRoute(publishedPort: int, deployment: string, service: string, containerPort: int)

  /** An observed replica; no health time stands for Go's zero time. */
  datatype Replica = Replica(id: string, deployment: string, service: string, state: string, lastHealthAt: Option<int>)

  /** Container addresses by replica id, per service key. */
  type Services = map<string, map<string, string>>

  datatype Opts = Opts(acmeEmail: string, acmeCA: string, acmeEnabled: bool, stagingCA: string, staging: set<string>)

  datatype Handler = Rewrite(strip: string) | Proxy(upstreams: seq<string>)

  /** One sub-route; no path patterns means it matches every path. */
  datatype Sub = Sub(paths: seq<string>, handle: seq<Handler>)

  datatype HttpRoute =
    | Challenge
    | Redirect(host: string)
    | Single(host: string, sub: Sub)
    | Nested(host: string, subs: seq<Sub>)
    | Fallback

  /** An automation policy; an empty email is omitted from the issuer. */
  datatype Policy = Policy(subjects: seq<string>, ca: string, email: string)

  datatype Layer4 = Layer4(listen: string, upstreams: seq<string>)

  datatype AutoHttps = DisableRedirects | Disable

  datatype Config = Config(
    https: seq<HttpRoute>, http: seq<HttpRoute>, auto: AutoHttps, policies: seq<Policy>, layer4: map<string, Layer4>)

  function MetaKey(deployment: string, service: string): string { deployment + "/" + service }

  // ---- Upstreams ---------------------------------------------------------------------------

  predicate IsEligible(r: Replica, now: int) {
    r.state == "running" && r.lastHealthAt.Some? && now - r.lastHealthAt.value < HEALTH_FRESHNESS
  }

  function ServiceOf(r: Replica): string { MetaKey(r.deployment, r.service) }
  function IdOf(r: Replica): string { r.id }

  function EligibleFor(now: int, key: string): Replica -> bool {
    (r: Replica) => IsEligible(r, now) && ServiceOf(r) == key
  }

  /** Ids of the eligible replicas by service key. */
  type Healthy = map<string, seq<string>>

  function IdsAt(h: Healthy, key: string): seq<string> { if key in h then h[key] else [] }

  ghost predicate IsIndex(h: Healthy, replicas: seq<Replica>, now: int) {
    forall key :: IdsAt(h, key) == Pick(replicas, EligibleFor(now, key), IdOf)
  }

  ghost predicate IsHealthy(h: Healthy, replicas: seq<Replica>, now: int) {
    forall key :: Sorted(IdsAt(h, key), Leq) && multiset(IdsAt(h, key)) == multiset(Pick(replicas, EligibleFor(now, key), IdOf))
  }

  method IndexReplicas(replicas: seq<Replica>, now: int) returns (h: Healthy)
    ensures IsIndex(h, replicas, now)
  {
    h := map[];
    for i := 0 to |replicas|
      invariant IsIndex(h, replicas[..i], now)
    {
      var r := replicas[i];
      assert replicas[..i + 1][..i] == replicas[..i];
      if IsEligible(r, now) {
        var key := MetaKey(r.deployment, r.service);
        h := h[key := (if key in h then h[key] else []) + [r.id]];
      }
    }
    assert replicas[..|replicas|] == replicas;
  }

  /** Index the eligible replicas by service, then sort each service's ids. */
  method HealthyByService(replicas: seq<Replica>, now: int) returns (h: Healthy)
    ensures IsHealthy(h, replicas, now)
  {
    var index := IndexReplicas(replicas, now);
    h := index;
    var todo := index.Keys;
    while todo != {}
      invariant todo <= index.Keys && h.Keys == index.Keys
      invariant forall k :: k in todo ==> h[k] == index[k]
      invariant forall k :: k in index && k !in todo ==> Sorted(h[k], Leq) && multiset(h[k]) == multiset(index[k])
      decreases todo
    {
      var k :| k in todo;
      todo := todo - {k};
      var ids := SortStrings(h[k]);
      h := h[k := ids];
    }
    forall key ensures Sorted(IdsAt(h, key), Leq) && multiset(IdsAt(h, key)) == multiset(Pick(replicas, EligibleFor(now, key), IdOf)) {
      assert IdsAt(index, key) == Pick(replicas, EligibleFor(now, key), IdOf);
    }
  }

  function HasIp(ips: map<string, string>): string -> bool { (id: string) => id in ips }
  function Dial(ips: map<string, string>, port: int): string -> string {
    (id: string) => (if id in ips then ips[id] else "") + ":" + Itoa(port)
  }

  /** The dial addresses of a service's eligible replicas that have an address. */
  function Upstreams(h: Healthy, services: Services, key: string, port: int): seq<string> {
    if key !in services then [] else Pick(IdsAt(h, key), HasIp(services[key]), Dial(services[key], port))
  }

  method BuildUpstreams(h: Healthy, services: Services, key: string, port: int) returns (ups: seq<string>)
    ensures ups == Upstreams(h, services, key, port)
  {
    ups := [];
    if key in services && key in h {
      var ids, ips := h[key], services[key];
      for i := 0 to |ids|
        invariant ups == Pick(ids[..i], HasIp(ips), Dial(ips, port))
      {
        assert ids[..i + 1][..i] == ids[..i];
        if ids[i] in ips {
          ups := ups + [ips[ids[i]] + ":" + Itoa(port)];
        }
      }
      assert ids[..|ids|] == ids;
    }
  }

  // ---- One domain ------------------------------------------------------------------------------

  function UpstreamsOf(h: Healthy, services: Services): Route -> seq<string> {
    (r: Route) => Upstreams(h, services, MetaKey(r.deployment, r.service), r.port)
  }

  function PathMatchers(path: string): seq<string> {
    if HasSuffix(path, "*") then [path]
    else var exact := TrimSuffix(path, "/"); [exact, exact + "/*"]
  }

  function StripPrefix(path: string): string { TrimSuffix(TrimSuffix(path, "*"), "/") }

  function HandleChain(r: Route, ups: seq<string>): seq<Handler> {
    if r.stripPath && r.path != "" then [Rewrite(StripPrefix(r.path)), Proxy(ups)] else [Proxy(ups)]
  }

  /** Longer paths first, equal lengths in string order. */
  predicate PathLe(a: Route, b: Route) {
    if |a.path| != |b.path| then |a.path| > |b.path| else Leq(a.path, b.path)
  }

  lemma PathPreorder()
    ensures Preorder(PathLe)
  {
    forall x, y ensures PathLe(x, y) || PathLe(y, x) {
      LeqTotal(x.path, y.path);
    }
    forall x, y, z | PathLe(x, y) && PathLe(y, z) ensures PathLe(x, z) {
      if |x.path| == |y.path| == |z.path| {
        LeqTransitive(x.path, y.path, z.path);
      }
    }
  }

  function PathOf(r: Route): string { r.path }
  function HasPath(r: Route): bool { r.path != "" }

  function PathSub(r: Route, ups: Route -> seq<string>): Sub { Sub(PathMatchers(r.path), HandleChain(r, ups(r))) }

  function PathSubs(rs: seq<Route>, ups: Route -> seq<string>): seq<Sub> {
    seq(|rs|, i requires 0 <= i < |rs| => PathSub(rs[i], ups))
  }

  /** The catch-all of a domain: the last of its routes without a path. */
  function CatchAll(rs: seq<Route>, ups: Route -> seq<string>): seq<Sub> {
    match LastWith(rs, PathOf, "")
    case Some(r) => [Sub([], [Proxy(ups(r))])]
    case None => []
  }

  /** The site of a domain with routes `rs`, its path routes sorted as `sorted`. */
  function SiteOf(domain: string, rs: seq<Route>, sorted: seq<Route>, ups: Route -> seq<string>): HttpRoute
    requires rs != []
  {
    if sorted == [] then
      Single(domain, Sub(if rs[0].path != "" then PathMatchers(rs[0].path) else [], HandleChain(rs[0], ups(rs[0]))))
    else Nested(domain, PathSubs(sorted, ups) + CatchAll(rs, ups))
  }

  ghost predicate IsSite(site: HttpRoute, domain: string, rs: seq<Route>, sorted: seq<Route>, ups: Route -> seq<string>) {
    && Sorted(sorted, PathLe) && multiset(sorted) == multiset(Pick(rs, HasPath, Same))
    && rs != [] && site == SiteOf(domain, rs, sorted, ups)
  }

  ghost predicate IsSiteOf(site: HttpRoute, domain: string, rs: seq<Route>, ups: Route -> seq<string>) {
    exists sorted :: IsSite(site, domain, rs, sorted, ups)
  }

  method SortByPath(s: seq<Route>) returns (r: seq<Route>)
    ensures Sorted(r, PathLe) && multiset(r) == multiset(s)
  {
    PathPreorder();
    r := Sort(s, PathLe);
  }

  method SplitByPath(rs: seq<Route>) returns (paths: seq<Route>, catchAll: Option<Route>)
    ensures paths == Pick(rs, HasPath, Same) && catchAll == LastWith(rs, PathOf, "")
  {
    paths, catchAll := [], None;
    for i := 0 to |rs|
      invariant paths == Pick(rs[..i], HasPath, Same) && catchAll == LastWith(rs[..i], PathOf, "")
    {
      assert rs[..i + 1][..i] == rs[..i];
      if rs[i].path == "" {
        catchAll := Some(rs[i]);
      } else {
        paths := paths + [rs[i]];
      }
    }
    assert rs[..|rs|] == rs;
  }

  method BuildHandleChain(r: Route, h: Healthy, services: Services) returns (chain: seq<Handler>)
    ensures chain == HandleChain(r, UpstreamsOf(h, services)(r))
  {
    var ups := BuildUpstreams(h, services, MetaKey(r.deployment, r.service), r.port);
    chain := HandleChain(r, ups);
  }

  lemma PathSubsNext(rs: seq<Route>, r: Route, ups: Route -> seq<string>)
    ensures PathSubs(rs + [r], ups) == PathSubs(rs, ups) + [PathSub(r, ups)]
  {
  }

  method BuildPathSubs(paths: seq<Route>, h: Healthy, services: Services) returns (subs: seq<Sub>)
    ensures subs == PathSubs(paths, UpstreamsOf(h, services))
  {
    subs := [];
    ghost var ups := UpstreamsOf(h, services);
    for i := 0 to |paths|
      invariant subs == PathSubs(paths[..i], ups)
    {
      PathSubsNext(paths[..i], paths[i], ups);
      assert paths[..i + 1] == paths[..i] + [paths[i]];
      var chain := BuildHandleChain(paths[i], h, services);
      subs := subs + [Sub(PathMatchers(paths[i].path), chain)];
    }
    assert paths[..|paths|] == paths;
  }

  method BuildDomainRoute(domain: string, rs: seq<Route>, h: Healthy, services: Services) returns (site: HttpRoute)
    requires rs != []
    ensures IsSiteOf(site, domain, rs, UpstreamsOf(h, services))
  {
    var paths, catchAll := SplitByPath(rs);
    paths := SortByPath(paths);
    if paths == [] {
      var chain := BuildHandleChain(rs[0], h, services);
      site := Single(domain, Sub(if rs[0].path != "" then PathMatchers(rs[0].path) else [], chain));
      assert IsSite(site, domain, rs, paths, UpstreamsOf(h, services));
      return;
    }
    var subs := BuildPathSubs(paths, h, services);
    if catchAll.Some? {
      var c := catchAll.value;
      var ups := BuildUpstreams(h, services, MetaKey(c.deployment, c.service), c.port);
      subs := subs + [Sub([], [Proxy(ups)])];
    }
    site := Nested(domain, subs);
    assert IsSite(site, domain, rs, paths, UpstreamsOf(h, services));
  }

  // ---- Domains ---------------------------------------------------------------------------------

  function OnDomain(d: string): Route -> bool { (r: Route) => r.domain == d }

  function RoutesOf(routes: seq<Route>, d: string): seq<Route> { Pick(routes, OnDomain(d), Same) }

  /** The domains in string order, each once. */
  ghost predicate IsDomains(domains: seq<string>, routes: seq<Route>) {
    Sorted(domains, Leq) && NoRepeat(domains) && forall d :: d in domains <==> RoutesOf(routes, d) != []
  }

  ghost predicate IsDomainMap(m: map<string, seq<Route>>, routes: seq<Route>) {
    && (forall d :: d in m <==> RoutesOf(routes, d) != [])
    && (forall d :: d in m ==> m[d] == RoutesOf(routes, d))
  }

  method GroupByDomain(routes: seq<Route>) returns (m: map<string, seq<Route>>)
    ensures IsDomainMap(m, routes)
  {
    m := map[];
    for i := 0 to |routes|
      invariant IsDomainMap(m, routes[..i])
    {
      assert routes[..i + 1][..i] == routes[..i];
      var r := routes[i];
      m := m[r.domain := (if r.domain in m then m[r.domain] else []) + [r]];
    }
    assert routes[..|routes|] == routes;
  }

  method SortedKeys<T>(m: map<string, T>) returns (ks: seq<string>)
    ensures Sorted(ks, Leq) && NoRepeat(ks) && forall k :: k in ks <==> k in m
  {
    var all, todo := [], m.Keys;
    while todo != {}
      invariant todo <= m.Keys && NoRepeat(all)
      invariant forall k :: k in all <==> k in m && k !in todo
      decreases todo
    {
      var k :| k in todo;
      todo := todo - {k};
      all := all + [k];
    }
    ks := SortStrings(all);
    PermutedNoRepeat(all, ks);
    forall k ensures k in ks <==> k in m {
      SameMembers(all, ks, k);
    }
  }

  /** The routes grouped under their domains, in the order of `domains`. */
  function Flatten(domains: seq<string>, routes: seq<Route>): seq<Route> {
    if domains == [] then []
    else var n := |domains| - 1; Flatten(domains[..n], routes) + RoutesOf(routes, domains[n])
  }

  /** Grouping neither drops nor reorders what is picked from one domain. */
  lemma {:induction false} FlattenPick<U>(domains: seq<string>, routes: seq<Route>, d: string, keep: Route -> bool, f: Route -> U)
    requires NoRepeat(domains)
    requires forall r :: keep(r) ==> r.domain == d
    ensures Pick(Flatten(domains, routes), keep, f) == if d in domains then Pick(routes, keep, f) else []
    decreases domains
  {
    if domains != [] {
      var n := |domains| - 1;
      FlattenPick(domains[..n], routes, d, keep, f);
      PickOfDomain(routes, domains[n], d, keep, f);
      PickConcat(Flatten(domains[..n], routes), RoutesOf(routes, domains[n]), keep, f);
      LastOnce(domains, d);
    }
  }

  lemma {:induction false} PickOfDomain<U>(routes: seq<Route>, e: string, d: string, keep: Route -> bool, f: Route -> U)
    requires forall r :: keep(r) ==> r.domain == d
    ensures Pick(RoutesOf(routes, e), keep, f) == if e == d then Pick(routes, keep, f) else []
    decreases routes
  {
    if routes != [] {
      var n := |routes| - 1;
      var r := routes[n];
      PickOfDomain(routes[..n], e, d, keep, f);
      if r.domain == e {
        PickConcat(RoutesOf(routes[..n], e), [r], keep, f);
        PickOne(r, keep, f);
      } else {
        assert RoutesOf(routes, e) == RoutesOf(routes[..n], e);
      }
    }
  }

  // ---- Certificate automation --------------------------------------------------------------------

  datatype PolicyKey = PolicyKey(staging: bool, email: string)

  function CaOf(opts: Opts): string { if opts.acmeCA == "" then PROD_CA else opts.acmeCA }

  function ContactIn(opts: Opts): Route -> string {
    (r: Route) => if r.acmeEmail == "" then opts.acmeEmail else r.acmeEmail
  }

  function AutoOn(d: string): Route -> bool { (r: Route) => r.tlsAuto && r.domain == d }

  /** The effective contacts of a domain's tls:auto routes, in order. */
  function Contacts(rs: seq<Route>, opts: Opts, d: string): seq<string> { Pick(rs, AutoOn(d), ContactIn(opts)) }

  predicate Secured(rs: seq<Route>, opts: Opts, d: string) { opts.acmeEnabled && Contacts(rs, opts, d) != [] }

  predicate Stages(opts: Opts, d: string) { d in opts.staging && opts.stagingCA != "" }

  /** The policy a domain falls under: the contact of its first tls:auto route counts. */
  function KeyFor(rs: seq<Route>, opts: Opts, d: string): PolicyKey {
    var cs := Contacts(rs, opts, d);
    PolicyKey(Stages(opts, d), if cs == [] then "" else cs[0])
  }

  function KeyIn(rs: seq<Route>, opts: Opts): string -> PolicyKey { (d: string) => KeyFor(rs, opts, d) }

  /** Staging policies first, then by contact. */
  predicate KeyLe(a: PolicyKey, b: PolicyKey) {
    if a.staging != b.staging then a.staging else Leq(a.email, b.email)
  }

  lemma KeyPreorder()
    ensures Preorder(KeyLe)
  {
    forall x, y ensures KeyLe(x, y) || KeyLe(y, x) {
      LeqTotal(x.email, y.email);
    }
    forall x, y, z | KeyLe(x, y) && KeyLe(y, z) ensures KeyLe(x, z) {
      if x.staging == y.staging == z.staging {
        LeqTransitive(x.email, y.email, z.email);
      }
    }
  }

  ghost predicate IsPolicy(p: Policy, k: PolicyKey, rs: seq<Route>, opts: Opts) {
    && p.email == k.email && p.ca == (if k.staging then opts.stagingCA else CaOf(opts))
    && p.subjects != [] && Sorted(p.subjects, Leq) && NoRepeat(p.subjects)
    && forall d :: d in p.subjects <==> Secured(rs, opts, d) && KeyFor(rs, opts, d) == k
  }

  ghost predicate IsPolicies(policies: seq<Policy>, keys: seq<PolicyKey>, rs: seq<Route>, opts: Opts) {
    && Sorted(keys, KeyLe) && NoRepeat(keys) && |policies| == |keys|
    && (forall d :: Secured(rs, opts, d) ==> KeyFor(rs, opts, d) in keys)
    && (forall i :: 0 <= i < |keys| ==> IsPolicy(policies[i], keys[i], rs, opts))
  }

  ghost predicate ArePolicies(policies: seq<Policy>, rs: seq<Route>, opts: Opts) {
    exists keys :: IsPolicies(policies, keys, rs, opts)
  }

  /** The domains seen so far, each once under its key. */
  ghost predicate GroupedBy(seen: set<string>, groups: map<PolicyKey, seq<string>>, key: string -> PolicyKey) {
    && (forall d :: d in seen ==> key(d) in groups && d in groups[key(d)])
    && (forall k :: k in groups ==> groups[k] != [] && NoRepeat(groups[k]))
    && (forall k, d :: k in groups && d in groups[k] ==> d in seen && key(d) == k)
  }

  lemma GroupedAdd(seen: set<string>, groups: map<PolicyKey, seq<string>>, key: string -> PolicyKey, key': string -> PolicyKey, d: string)
    requires GroupedBy(seen, groups, key) && d !in seen
    requires forall e :: e in seen ==> key'(e) == key(e)
    ensures var k := key'(d);
            GroupedBy(seen + {d}, groups[k := (if k in groups then groups[k] else []) + [d]], key')
  {
  }

  ghost predicate IsSeen(seen: set<string>, rs: seq<Route>, opts: Opts) {
    forall d :: d in seen <==> Contacts(rs, opts, d) != []
  }

  ghost predicate IsGrouped(seen: set<string>, groups: map<PolicyKey, seq<string>>, rs: seq<Route>, opts: Opts) {
    IsSeen(seen, rs, opts) && GroupedBy(seen, groups, KeyIn(rs, opts))
  }

  lemma SeenNext(seen: set<string>, rs: seq<Route>, r: Route, opts: Opts)
    requires IsSeen(seen, rs, opts)
    ensures IsSeen(if r.tlsAuto then seen + {r.domain} else seen, rs + [r], opts)
  {
  }

  lemma KeysKept(seen: set<string>, rs: seq<Route>, r: Route, opts: Opts)
    requires IsSeen(seen, rs, opts)
    ensures forall d :: d in seen ==> KeyIn(rs + [r], opts)(d) == KeyIn(rs, opts)(d)
  {
  }

  lemma NewKey(seen: set<string>, rs: seq<Route>, r: Route, opts: Opts)
    requires IsSeen(seen, rs, opts) && r.tlsAuto && r.domain !in seen
    ensures KeyIn(rs + [r], opts)(r.domain) == PolicyKey(Stages(opts, r.domain), ContactIn(opts)(r))
  {
  }

  lemma GroupedKept(seen: set<string>, groups: map<PolicyKey, seq<string>>, rs: seq<Route>, r: Route, opts: Opts)
    requires IsGrouped(seen, groups, rs, opts) && (!r.tlsAuto || r.domain in seen)
    ensures IsGrouped(seen, groups, rs + [r], opts)
  {
  }

  lemma GroupedNext(seen: set<string>, groups: map<PolicyKey, seq<string>>, rs: seq<Route>, r: Route, opts: Opts, k: PolicyKey)
    requires IsGrouped(seen, groups, rs, opts) && r.tlsAuto && r.domain !in seen
    requires k == PolicyKey(Stages(opts, r.domain), ContactIn(opts)(r))
    ensures IsGrouped(seen + {r.domain}, groups[k := (if k in groups then groups[k] else []) + [r.domain]], rs + [r], opts)
  {
    SeenNext(seen, rs, r, opts);
    KeysKept(seen, rs, r, opts);
    NewKey(seen, rs, r, opts);
    GroupedAdd(seen, groups, KeyIn(rs, opts), KeyIn(rs + [r], opts), r.domain);
  }

  method GroupByPolicy(rs: seq<Route>, opts: Opts) returns (groups: map<PolicyKey, seq<string>>, seen: set<string>)
    ensures IsGrouped(seen, groups, rs, opts)
  {
    seen, groups := {}, map[];
    for i := 0 to |rs|
      invariant IsGrouped(seen, groups, rs[..i], opts)
    {
      var r := rs[i];
      assert rs[..i + 1] == rs[..i] + [r];
      if !r.tlsAuto || r.domain in seen {
        GroupedKept(seen, groups, rs[..i], r, opts);
      } else {
        var email := if r.acmeEmail == "" then opts.acmeEmail else r.acmeEmail;
        var key := PolicyKey(r.domain in opts.staging && opts.stagingCA != "", email);
        GroupedNext(seen, groups, rs[..i], r, opts, key);
        seen := seen + {r.domain};
        groups := groups[key := (if key in groups then groups[key] else []) + [r.domain]];
      }
    }
    assert rs[..|rs|] == rs;
  }

  method SortKeys(groups: map<PolicyKey, seq<string>>) returns (keys: seq<PolicyKey>)
    ensures Sorted(keys, KeyLe) && NoRepeat(keys) && forall k :: k in keys <==> k in groups
  {
    var all, todo := [], groups.Keys;
    while todo != {}
      invariant todo <= groups.Keys && NoRepeat(all)
      invariant forall k :: k in all <==> k in groups && k !in todo
      decreases todo
    {
      var k :| k in todo;
      todo := todo - {k};
      all := all + [k];
    }
    KeyPreorder();
    keys := Sort(all, KeyLe);
    PermutedNoRepeat(all, keys);
    forall k ensures k in keys <==> k in groups {
      SameMembers(all, keys, k);
    }
  }

  lemma GroupIsPolicy(seen: set<string>, groups: map<PolicyKey, seq<string>>, rs: seq<Route>, opts: Opts, k: PolicyKey, subjects: seq<string>)
    requires IsGrouped(seen, groups, rs, opts) && opts.acmeEnabled && k in groups
    requires Sorted(subjects, Leq) && multiset(subjects) == multiset(groups[k])
    ensures IsPolicy(Policy(subjects, if k.staging then opts.stagingCA else CaOf(opts), k.email), k, rs, opts)
  {
    PermutedNoRepeat(groups[k], subjects);
    SameLength(subjects, groups[k]);
    forall d ensures d in subjects <==> Secured(rs, opts, d) && KeyFor(rs, opts, d) == k {
      SameMembers(subjects, groups[k], d);
    }
  }

  method BuildTLSPolicies(rs: seq<Route>, opts: Opts) returns (policies: seq<Policy>)
    ensures ArePolicies(policies, rs, opts)
  {
    policies := [];
    if !opts.acmeEnabled {
      assert IsPolicies([], [], rs, opts);
      return;
    }
    var groups, seen := GroupByPolicy(rs, opts);
    var ks := SortKeys(groups);
    for i := 0 to |ks|
      invariant |policies| == i && forall j :: 0 <= j < i ==> IsPolicy(policies[j], ks[j], rs, opts)
    {
      assert ks[i] in ks;
      var subjects := SortStrings(groups[ks[i]]);
      GroupIsPolicy(seen, groups, rs, opts, ks[i], subjects);
      policies := policies + [Policy(subjects, if ks[i].staging then opts.stagingCA else CaOf(opts), ks[i].email)];
    }
    assert IsPolicies(policies, ks, rs, opts);
  }

  method RedirectDomains(rs: seq<Route>, opts: Opts) returns (redirect: set<string>)
    ensures forall d :: d in redirect <==> Secured(rs, opts, d)
  {
    redirect := {};
    if opts.acmeEnabled {
      for i := 0 to |rs|
        invariant IsSeen(redirect, rs[..i], opts)
      {
        assert rs[..i + 1] == rs[..i] + [rs[i]];
        SeenNext(redirect, rs[..i], rs[i], opts);
        if rs[i].tlsAuto {
          redirect := redirect + {rs[i].domain};
        }
      }
      assert rs[..|rs|] == rs;
    }
  }

  // ---- TCP listeners ----------------------------------------------------------------------------

  predicate PortLe(a: TcpRoute, b: TcpRoute) { a.publishedPort <= b.publishedPort }

  function TcpUpstreams(h: Healthy, services: Services, r: TcpRoute): seq<string> {
    Upstreams(h, services, MetaKey(r.deployment, r.service), r.containerPort)
  }

  function ServerName(r: TcpRoute): string { "tcp_" + Itoa(r.publishedPort) }

  /** A server per route that has an upstream; of routes with one port the last counts. */
  function Servers(sorted: seq<TcpRoute>, h: Healthy, services: Services): map<string, Layer4> {
    if sorted == [] then map[]
    else
      var n := |sorted| - 1;
      var m, ups := Servers(sorted[..n], h, services), TcpUpstreams(h, services, sorted[n]);
      if ups == [] then m else m[ServerName(sorted[n]) := Layer4(":" + Itoa(sorted[n].publishedPort), ups)]
  }

  ghost predicate IsServers(servers: map<string, Layer4>, tcp: seq<TcpRoute>, sorted: seq<TcpRoute>, h: Healthy, services: Services) {
    Sorted(sorted, PortLe) && multiset(sorted) == multiset(tcp) && servers == Servers(sorted, h, services)
  }

  ghost predicate AreServers(servers: map<string, Layer4>, tcp: seq<TcpRoute>, h: Healthy, services: Services) {
    exists sorted :: IsServers(servers, tcp, sorted, h, services)
  }

  method BuildLayer4Servers(tcp: seq<TcpRoute>, h: Healthy, services: Services) returns (servers: map<string, Layer4>)
    ensures AreServers(servers, tcp, h, services)
  {
    var rs := Sort(tcp, PortLe);
    servers := map[];
    for i := 0 to |rs|
      invariant servers == Servers(rs[..i], h, services)
    {
      assert rs[..i + 1][..i] == rs[..i];
      var ups := BuildUpstreams(h, services, MetaKey(rs[i].deployment, rs[i].service), rs[i].containerPort);
      if ups != [] {
        servers := servers[ServerName(rs[i]) := Layer4(":" + Itoa(rs[i].publishedPort), ups)];
      }
    }
    assert rs[..|rs|] == rs;
    assert IsServers(servers, tcp, rs, h, services);
  }

  // ---- The whole configuration --------------------------------------------------------------------

  datatype Inputs = Inputs(routes: seq<Route>, tcp: seq<TcpRoute>, replicas: seq<Replica>, services: Services, opts: Opts, now: int)

  /** What a build works out on the way: eligible replicas, domains and their sites. */
  datatype Work = Work(healthy: Healthy, domains: seq<string>, sites: seq<HttpRoute>)

  ghost predicate AreSites(n: Inputs, w: Work) {
    |w.sites| == |w.domains| && forall i :: 0 <= i < |w.domains| ==> SiteAt(n, w, i)
  }

  ghost predicate SiteAt(n: Inputs, w: Work, i: nat)
    requires i < |w.domains| == |w.sites|
  {
    IsSiteOf(w.sites[i], w.domains[i], RoutesOf(n.routes, w.domains[i]), UpstreamsOf(w.healthy, n.services))
  }

  /** On port 80, secured domains redirect and the others proxy. */
  function Plain(domains: seq<string>, sites: seq<HttpRoute>, rs: seq<Route>, opts: Opts): seq<HttpRoute>
    requires |domains| == |sites|
  {
    seq(|domains|, i requires 0 <= i < |domains| => if Secured(rs, opts, domains[i]) then Redirect(domains[i]) else sites[i])
  }

  ghost predicate IsConfig(n: Inputs, w: Work, cfg: Config) {
    && IsHealthy(w.healthy, n.replicas, n.now)
    && IsDomains(w.domains, n.routes)
    && AreSites(n, w)
    && ArePolicies(cfg.policies, Flatten(w.domains, n.routes), n.opts)
    && AreServers(cfg.layer4, n.tcp, w.healthy, n.services)
    && cfg.https == w.sites + [Fallback]
    && cfg.http == (if cfg.policies != [] then [Challenge] else [])
                   + Plain(w.domains, w.sites, Flatten(w.domains, n.routes), n.opts) + [Fallback]
    && cfg.auto == (if cfg.policies == [] then Disable else DisableRedirects)
  }

  /** What the builder may return for these inputs. */
  ghost predicate Builds(n: Inputs, cfg: Config) {
    exists w :: IsConfig(n, w, cfg)
  }

  /** A check of one site against its domain and its routes. */
  type SiteCheck = (HttpRoute, string, seq<Route>) -> bool

  ghost function Checked(ups: Route -> seq<string>): SiteCheck {
    (site, d, rs) => IsSiteOf(site, d, rs, ups)
  }

  ghost predicate AreBuilt(domains: seq<string>, byDomain: map<string, seq<Route>>, sites: seq<HttpRoute>, ok: SiteCheck) {
    && |sites| == |domains|
    && forall i :: 0 <= i < |domains| ==> domains[i] in byDomain && ok(sites[i], domains[i], byDomain[domains[i]])
  }

  ghost predicate Accepts(ok: SiteCheck, ups: Route -> seq<string>) {
    forall site, d, rs {:trigger IsSiteOf(site, d, rs, ups)} :: IsSiteOf(site, d, rs, ups) ==> ok(site, d, rs)
  }

  method BuildSite(domain: string, rs: seq<Route>, h: Healthy, services: Services, ghost ok: SiteCheck) returns (site: HttpRoute)
    requires rs != [] && Accepts(ok, UpstreamsOf(h, services))
    ensures ok(site, domain, rs)
  {
    site := BuildDomainRoute(domain, rs, h, services);
  }

  method BuildSites(domains: seq<string>, byDomain: map<string, seq<Route>>, h: Healthy, services: Services, ghost ok: SiteCheck)
    returns (sites: seq<HttpRoute>)
    requires forall d :: d in domains ==> d in byDomain && byDomain[d] != []
    requires Accepts(ok, UpstreamsOf(h, services))
    ensures AreBuilt(domains, byDomain, sites, ok)
  {
    sites := [];
    for i := 0 to |domains|
      invariant AreBuilt(domains[..i], byDomain, sites, ok)
    {
      assert domains[i] in domains;
      var site := BuildSite(domains[i], byDomain[domains[i]], h, services, ok);
      sites := sites + [site];
    }
    assert domains[..|domains|] == domains;
  }

  method JoinRoutes(n: Inputs, domains: seq<string>, byDomain: map<string, seq<Route>>) returns (rs: seq<Route>)
    requires IsDomainMap(byDomain, n.routes) && forall d :: d in domains ==> d in byDomain
    ensures rs == Flatten(domains, n.routes)
  {
    rs := [];
    for i := 0 to |domains|
      invariant rs == Flatten(domains[..i], n.routes)
    {
      assert domains[i] in domains;
      assert domains[..i + 1][..i] == domains[..i];
      rs := rs + byDomain[domains[i]];
    }
    assert domains[..|domains|] == domains;
  }

  method BuildHttpRoutes(domains: seq<string>, sites: seq<HttpRoute>, redirect: set<string>, ghost rs: seq<Route>, ghost opts: Opts)
    returns (https: seq<HttpRoute>, http: seq<HttpRoute>)
    requires |sites| == |domains| && forall d :: d in redirect <==> Secured(rs, opts, d)
    ensures https == sites + [Fallback] && http == Plain(domains, sites, rs, opts) + [Fallback]
  {
    https, http := [], [];
    for i := 0 to |domains|
      invariant https == sites[..i] && http == Plain(domains[..i], sites[..i], rs, opts)
    {
      https := https + [sites[i]];
      http := http + [if domains[i] in redirect then Redirect(domains[i]) else sites[i]];
    }
    assert sites[..|sites|] == sites && domains[..|domains|] == domains;
    https, http := https + [Fallback], http + [Fallback];
  }

  method BuildCaddyConfig(n: Inputs) returns (cfg: Config)
    ensures Builds(n, cfg)
  {
    var healthy := HealthyByService(n.replicas, n.now);
    var byDomain := GroupByDomain(n.routes);
    var domains := SortedKeys(byDomain);
    var rs := JoinRoutes(n, domains, byDomain);
    var redirect := RedirectDomains(rs, n.opts);
    var sites := BuildSites(domains, byDomain, healthy, n.services, Checked(UpstreamsOf(healthy, n.services)));
    var https, http := BuildHttpRoutes(domains, sites, redirect, rs, n.opts);
    var policies := BuildTLSPolicies(rs, n.opts);
    if policies != [] {
      http := [Challenge] + http;
    }
    var layer4 := BuildLayer4Servers(n.tcp, healthy, n.services);
    cfg := Config(https, http, if policies == [] then Disable else DisableRedirects, policies, layer4);
    AssembledSites(n, Work(healthy, domains, sites), byDomain);
    AssembledConfig(n, Work(healthy, domains, sites), cfg, rs);
  }

  lemma AssembledSites(n: Inputs, w: Work, byDomain: map<string, seq<Route>>)
    requires IsDomainMap(byDomain, n.routes)
    requires AreBuilt(w.domains, byDomain, w.sites, Checked(UpstreamsOf(w.healthy, n.services)))
    ensures AreSites(n, w)
  {
  }

  lemma AssembledConfig(n: Inputs, w: Work, cfg: Config, rs: seq<Route>)
    requires IsHealthy(w.healthy, n.replicas, n.now) && IsDomains(w.domains, n.routes) && AreSites(n, w)
    requires rs == Flatten(w.domains, n.routes) && ArePolicies(cfg.policies, rs, n.opts)
    requires AreServers(cfg.layer4, n.tcp, w.healthy, n.services)
    requires cfg.https == w.sites + [Fallback]
    requires var http := Plain(w.domains, w.sites, rs, n.opts) + [Fallback];
             cfg.http == if cfg.policies != [] then [Challenge] + http else http
    requires cfg.auto == if cfg.policies == [] then Disable else DisableRedirects
    ensures IsConfig(n, w, cfg)
  {
  }
}
