/** From replicated state to the builder's inputs, and on to the configuration: two nodes
    that hold the same state build the same one, however each ranges over its stores. */
module IngressBuilder {
  import opened Prelude
  import opened Sorting
  import E = Entities
  import opened Fsm
  import opened CaddyConfig
  import opened CaddyOrder

  // ---- Projections ----------------------------------------------------------------------------

  function EmailOf(s: State, deployment: string): string {
    if deployment in s.deployments then s.deployments[deployment].acmeEmail else ""
  }

  function RouteView(s: State): E.Route -> Route {
    (r: E.Route) => Route(r.domain, r.deployment, r.service, r.port, r.tlsAuto, r.path, r.stripPath, EmailOf(s, r.deployment))
  }

  function TcpView(r: E.TcpRoute): TcpRoute { TcpRoute(r.publishedPort, r.deployment, r.service, r.containerPort) }

  function StateName(st: E.ReplicaState): string {
    match st
    case Running => "running"
    case Degraded => "degraded"
    case Failed => "failed"
    case PendingReplica => "pending"
    case _ => ""
  }

  /** An observed replica with the deployment and service of its desired record, if any. */
  function ReplicaView(s: State): E.ReplicaObserved -> Replica {
    (o: E.ReplicaObserved) =>
      Replica(o.id, if o.id in s.desired then s.desired[o.id].deployment else "",
              if o.id in s.desired then s.desired[o.id].service else "", StateName(o.state), Some(E.AsTime(o.lastHealthAt)))
  }

  function ServiceNetworks(services: seq<E.ServiceSpec>, service: string): seq<string> {
    if services == [] then [] else if services[0].name == service then services[0].networks
    else ServiceNetworks(services[1..], service)
  }

  function NetworksOf(s: State, deployment: string, service: string): seq<string> {
    if deployment in s.deployments then ServiceNetworks(s.deployments[deployment].services, service) else []
  }

  function DockerNetworkName(deployment: string, network: string): string {
    "jaco_" + deployment + "_" + if network == "default" then "_default" else network
  }

  function AddressOn(details: E.Details, deployment: string, network: string): string {
    var k := "ip." + DockerNetworkName(deployment, network);
    if k in details then details[k] else ""
  }

  /** The address on the last of the networks that has one. */
  function LastAddress(details: E.Details, deployment: string, networks: seq<string>): string {
    if networks == [] then ""
    else
      var ip := AddressOn(details, deployment, networks[|networks| - 1]);
      if ip != "" then ip else LastAddress(details, deployment, networks[..|networks| - 1])
  }

  function AddressOf(s: State, o: E.ReplicaObserved): string {
    if o.id !in s.desired then ""
    else var d := s.desired[o.id]; LastAddress(o.details, d.deployment, NetworksOf(s, d.deployment, d.service))
  }

  // ---- Service addresses -------------------------------------------------------------------------

  function At(m: Services, key: string): map<string, string> { if key in m then m[key] else map[] }

  function Lookup(m: Services, key: string, id: string): Option<string> {
    if id in At(m, key) then Some(At(m, key)[id]) else None
  }

  /** The address registered for a replica under a service key. */
  function Registered(s: State, key: string, id: string): Option<string> {
    if && id in s.observed && id in s.desired && MetaKey(s.desired[id].deployment, s.desired[id].service) == key
       && AddressOf(s, s.observed[id]) != ""
    then Some(AddressOf(s, s.observed[id]))
    else None
  }

  ghost predicate IsServices(s: State, m: Services) {
    (forall key, id :: Lookup(m, key, id) == Registered(s, key, id)) && forall key :: key in m ==> m[key] != map[]
  }

  function RegisteredIn(s: State): (string, string) -> Option<string> { (key, id) => Registered(s, key, id) }

  ghost predicate RegistersDone(reg: (string, string) -> Option<string>, m: Services, done: set<string>) {
    && (forall key, id :: Lookup(m, key, id) == if id in done then reg(key, id) else None)
    && (forall key :: key in m ==> m[key] != map[])
  }

  /** The loop over a replica's networks: each address found overwrites the one before. */
  method Register(m: Services, s: State, o: E.ReplicaObserved) returns (r: Services)
    ensures r == if AddressOf(s, o) == "" then m
                 else var key := MetaKey(s.desired[o.id].deployment, s.desired[o.id].service);
                      m[key := At(m, key)[o.id := AddressOf(s, o)]]
  {
    r := m;
    if o.id in s.desired {
      var d := s.desired[o.id];
      var networks := NetworksOf(s, d.deployment, d.service);
      var key := MetaKey(d.deployment, d.service);
      for i := 0 to |networks|
        invariant var ip := LastAddress(o.details, d.deployment, networks[..i]);
                  r == if ip == "" then m else m[key := At(m, key)[o.id := ip]]
      {
        assert networks[..i + 1][..i] == networks[..i];
        var ip := AddressOn(o.details, d.deployment, networks[i]);
        if ip != "" {
          assert At(r, key)[o.id := ip] == At(m, key)[o.id := ip];
          r := r[key := At(r, key)[o.id := ip]];
        }
      }
      assert networks[..|networks|] == networks;
    }
  }

  lemma RegisterNext(reg: (string, string) -> Option<string>, m: Services, done: set<string>, id: string, key: string, ip: string)
    requires RegistersDone(reg, m, done)
    requires forall k :: reg(k, id) == if ip != "" && k == key then Some(ip) else None
    ensures RegistersDone(reg, if ip == "" then m else m[key := At(m, key)[id := ip]], done + {id})
  {
    var r := if ip == "" then m else m[key := At(m, key)[id := ip]];
    forall k, i ensures Lookup(r, k, i) == if i in done + {id} then reg(k, i) else None {
      assert Lookup(m, k, i) == if i in done then reg(k, i) else None;
    }
    assert ip != "" ==> id in r[key];
  }

  lemma RegisteredAs(s: State, o: E.ReplicaObserved, key: string)
    requires o.id in s.observed && s.observed[o.id] == o
    requires AddressOf(s, o) != "" ==> key == MetaKey(s.desired[o.id].deployment, s.desired[o.id].service)
    ensures forall k :: RegisteredIn(s)(k, o.id) == if AddressOf(s, o) != "" && k == key then Some(AddressOf(s, o)) else None
  {
  }

  method BuildServices(s: State) returns (m: Services)
    requires Filed(s.observed, E.KeyOfObserved)
    ensures IsServices(s, m)
  {
    var listing := List(s.observed);
    m := map[];
    ghost var done: set<string> := {};
    for i := 0 to |listing|
      invariant RegistersDone(RegisteredIn(s), m, done)
      invariant forall j :: 0 <= j < i ==> listing[j].id in done
    {
      ListingSound(s.observed, listing, i);
      var o := listing[i];
      ghost var key := if o.id in s.desired then MetaKey(s.desired[o.id].deployment, s.desired[o.id].service) else "";
      RegisteredAs(s, o, key);
      RegisterNext(RegisteredIn(s), m, done, o.id, key, AddressOf(s, o));
      m := Register(m, s, o);
      done := done + {o.id};
    }
    forall key, id ensures Lookup(m, key, id) == Registered(s, key, id) {
      assert Lookup(m, key, id) == if id in done then RegisteredIn(s)(key, id) else None;
      if id in s.observed {
        ListingComplete(s.observed, listing, id);
      }
    }
  }

  lemma ServicesUnique(s: State, m: Services, n: Services)
    requires IsServices(s, m) && IsServices(s, n)
    ensures m == n
  {
    ServicesKeys(s, m, n);
    ServicesKeys(s, n, m);
    forall key | key in m ensures m[key] == n[key] {
      forall id ensures (id in m[key] <==> id in n[key]) && (id in m[key] ==> m[key][id] == n[key][id]) {
        assert Lookup(m, key, id) == Registered(s, key, id) == Lookup(n, key, id);
      }
    }
  }

  lemma ServicesKeys(s: State, m: Services, n: Services)
    requires IsServices(s, m) && IsServices(s, n)
    ensures forall key :: key in m ==> key in n
  {
    forall key | key in m ensures key in n {
      var id :| id in m[key];
      assert Lookup(m, key, id) == Registered(s, key, id) == Lookup(n, key, id);
    }
  }

  // ---- The builder's inputs --------------------------------------------------------------------------

  /** The entries of a store, listed in some order and projected. */
  ghost predicate IsView<T(!new), U>(m: map<string, T>, view: T -> U, r: seq<U>) {
    exists listing :: IsListing(m, listing) && r == Pick(listing, Any, view)
  }

  /** Inputs read from the state `s`. */
  ghost predicate Projects(s: State, opts: Opts, now: int, n: Inputs) {
    && n.opts == opts && n.now == now && IsServices(s, n.services)
    && IsView(s.routes, RouteView(s), n.routes)
    && IsView(s.tcpRoutes, TcpView, n.tcp)
    && IsView(s.observed, ReplicaView(s), n.replicas)
  }

  method Emails(s: State) returns (m: map<string, string>)
    requires Filed(s.deployments, E.KeyOfDeployment)
    ensures forall d :: (if d in m then m[d] else "") == EmailOf(s, d)
  {
    var listing := List(s.deployments);
    m := map[];
    for i := 0 to |listing|
      invariant forall d :: d in m ==> d in s.deployments && m[d] == s.deployments[d].acmeEmail
      invariant forall j :: 0 <= j < i ==> listing[j].name in m
    {
      ListingSound(s.deployments, listing, i);
      m := m[listing[i].name := listing[i].acmeEmail];
    }
    forall d | d in s.deployments ensures d in m {
      ListingComplete(s.deployments, listing, d);
    }
  }

  method ViewRoutes(s: State, listing: seq<E.Route>, emails: map<string, string>) returns (r: seq<Route>)
    requires forall d :: (if d in emails then emails[d] else "") == EmailOf(s, d)
    ensures r == Pick(listing, Any, RouteView(s))
  {
    r := [];
    for i := 0 to |listing|
      invariant r == Pick(listing[..i], Any, RouteView(s))
    {
      assert listing[..i + 1][..i] == listing[..i];
      var x := listing[i];
      var email := if x.deployment in emails then emails[x.deployment] else "";
      r := r + [Route(x.domain, x.deployment, x.service, x.port, x.tlsAuto, x.path, x.stripPath, email)];
    }
    assert listing[..|listing|] == listing;
  }

  method ViewEach<T, U>(listing: seq<T>, view: T -> U) returns (r: seq<U>)
    ensures r == Pick(listing, Any, view)
  {
    r := [];
    for i := 0 to |listing|
      invariant r == Pick(listing[..i], Any, view)
    {
      assert listing[..i + 1][..i] == listing[..i];
      r := r + [view(listing[i])];
    }
    assert listing[..|listing|] == listing;
  }

  method BuildInputs(s: State, opts: Opts, now: int) returns (n: Inputs)
    requires WellFiled(s)
    ensures Projects(s, opts, now, n)
  {
    var emails := Emails(s);
    var routeList := List(s.routes);
    var routes := ViewRoutes(s, routeList, emails);
    var observedList := List(s.observed);
    var replicas := ViewEach(observedList, ReplicaView(s));
    var services := BuildServices(s);
    var tcpList := List(s.tcpRoutes);
    var tcp := ViewEach(tcpList, TcpView);
    n := Inputs(routes, tcp, replicas, services, opts, now);
  }

  // ---- One state, one configuration --------------------------------------------------------------------

  lemma ViewsPermute<T(!new), U>(m: map<string, T>, view: T -> U, a: seq<U>, b: seq<U>)
    requires IsView(m, view, a) && IsView(m, view, b)
    ensures multiset(a) == multiset(b)
  {
    var la :| IsListing(m, la) && a == Pick(la, Any, view);
    var lb :| IsListing(m, lb) && b == Pick(lb, Any, view);
    ListingsPermute(m, la, lb);
    PickPermutes(la, lb, Any, view);
  }

  lemma ViewMember<T(!new), U>(m: map<string, T>, view: T -> U, a: seq<U>, u: U) returns (k: string)
    requires IsView(m, view, a) && u in a
    ensures k in m && view(m[k]) == u
  {
    var listing :| IsListing(m, listing) && a == Pick(listing, Any, view);
    PickMember(listing, Any, view, u);
    var x :| x in listing && view(x) == u;
    var i :| 0 <= i < |listing| && listing[i] == x;
    ListingSound(m, listing, i);
    k :| k in m && m[k] == x;
  }

  lemma ViewPaths(s: State, a: seq<Route>)
    requires Filed(s.routes, E.KeyOfRoute) && IsView(s.routes, RouteView(s), a)
    ensures UniquePaths(a)
  {
    forall r, t | r in a && t in a && r.domain == t.domain && r.path == t.path ensures r == t {
      var k := ViewMember(s.routes, RouteView(s), a, r);
      var l := ViewMember(s.routes, RouteView(s), a, t);
      assert k == E.KeyOfRoute(s.routes[k]) == E.KeyOfRoute(s.routes[l]) == l;
    }
  }

  lemma ViewPorts(s: State, a: seq<TcpRoute>)
    requires Filed(s.tcpRoutes, E.KeyOfTcpRoute) && IsView(s.tcpRoutes, TcpView, a)
    ensures UniquePorts(a)
  {
    forall r, t | r in a && t in a && r.publishedPort == t.publishedPort ensures r == t {
      var k := ViewMember(s.tcpRoutes, TcpView, a, r);
      var l := ViewMember(s.tcpRoutes, TcpView, a, t);
      assert k == E.KeyOfTcpRoute(s.tcpRoutes[k]) == E.KeyOfTcpRoute(s.tcpRoutes[l]) == l;
    }
  }

  /** No two tls:auto routes of one domain belong to deployments with different contacts. */
  ghost predicate OneContactIn(s: State, opts: Opts) {
    opts.acmeEnabled ==>
      forall k, l :: k in s.routes && l in s.routes && s.routes[k].tlsAuto && s.routes[l].tlsAuto
                     && s.routes[k].domain == s.routes[l].domain ==>
        ContactIn(opts)(RouteView(s)(s.routes[k])) == ContactIn(opts)(RouteView(s)(s.routes[l]))
  }

  lemma ViewContacts(s: State, n: Inputs)
    requires IsView(s.routes, RouteView(s), n.routes) && OneContactIn(s, n.opts)
    ensures OneContact(n)
  {
    if n.opts.acmeEnabled {
      forall r, t | r in n.routes && t in n.routes && r.tlsAuto && t.tlsAuto && r.domain == t.domain
        ensures ContactIn(n.opts)(r) == ContactIn(n.opts)(t)
      {
        var k := ViewMember(s.routes, RouteView(s), n.routes, r);
        var l := ViewMember(s.routes, RouteView(s), n.routes, t);
      }
    }
  }

  /** Two nodes that hold the same state, with the same options and clock, build the same
      configuration, however each ranges over its stores, as long as no domain has two contacts. */
  lemma SameStateSameConfig(s: State, opts: Opts, now: int, m: Inputs, n: Inputs, a: Config, b: Config)
    requires WellFiled(s) && Projects(s, opts, now, m) && Projects(s, opts, now, n) && OneContactIn(s, opts)
    requires Builds(m, a) && Builds(n, b)
    ensures a == b
  {
    ViewsPermute(s.routes, RouteView(s), m.routes, n.routes);
    ViewsPermute(s.tcpRoutes, TcpView, m.tcp, n.tcp);
    ViewsPermute(s.observed, ReplicaView(s), m.replicas, n.replicas);
    ServicesUnique(s, m.services, n.services);
    ViewPaths(s, m.routes);
    ViewPorts(s, m.tcp);
    ViewContacts(s, m);
    ConfigIgnoresOrder(m, n, a, b);
  }
}
