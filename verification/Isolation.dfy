/** The allocator's disjoint blocks make the packet filter exact. */
module Isolation {
  import opened Prelude
  import opened Sorting
  import opened Cidr
  import E = Entities
  import Ipam
  import F = Firewall

  function Project(n: E.Subnet): F.Subnet { F.Subnet(n.deployment, n.network, n.cidr) }

  /** The rule input the daemon builds from a listing of the replicated subnets. */
  function RuleInput(listing: seq<E.Subnet>): seq<F.Subnet> {
    Pick(listing, Any, Project)
  }

  /** An address lies in at most one block of the pool. */
  lemma OneBlock(pool: Ipam.Pool, x: Address, c: string, d: string)
    requires Ipam.InPool(pool, c) && Ipam.InPool(pool, d) && InBlock(x, c) && InBlock(x, d)
    ensures c == d
  {
  }

  lemma InputMember(m: map<string, E.Subnet>, listing: seq<E.Subnet>, n: F.Subnet) returns (k: string)
    requires IsListing(m, listing) && n in RuleInput(listing)
    ensures k in m && Project(m[k]) == n
  {
    PickMember(listing, Any, Project, n);
    var e :| e in listing && Any(e) && Project(e) == n;
    var i :| 0 <= i < |listing| && listing[i] == e;
    ListingSound(m, listing, i);
    k :| k in m && m[k] == listing[i];
  }

  lemma StoreMember(m: map<string, E.Subnet>, listing: seq<E.Subnet>, k: string)
    requires IsListing(m, listing) && k in m
    ensures Project(m[k]) in RuleInput(listing)
  {
    ListingComplete(m, listing, k);
    PickMember(listing, Any, Project, Project(m[k]));
  }

  lemma DisjointIsSeparate(pool: Ipam.Pool, m: map<string, E.Subnet>, listing: seq<E.Subnet>, nm: F.Subnet -> string)
    requires Ipam.Disjoint(pool, m) && IsListing(m, listing)
    ensures F.Separate(RuleInput(listing), nm)
  {
    forall a, b, x | a in RuleInput(listing) && b in RuleInput(listing) && InBlock(x, a.cidr) && InBlock(x, b.cidr)
      ensures nm(a) == nm(b)
    {
      var k := InputMember(m, listing, a);
      var l := InputMember(m, listing, b);
      OneBlock(pool, x, m[k].cidr, m[l].cidr);
    }
  }

  /** Source and destination lie in stored subnets whose set names differ. */
  ghost predicate CrossesStore(m: map<string, E.Subnet>, digest: string -> string, p: F.Packet) {
    exists k, l :: k in m && l in m && InBlock(p.src, m[k].cidr) && InBlock(p.dst, m[l].cidr)
                   && F.SetName(m[k].deployment, m[k].network, digest) != F.SetName(m[l].deployment, m[l].network, digest)
  }

  lemma CrossesEither(m: map<string, E.Subnet>, listing: seq<E.Subnet>, digest: string -> string, p: F.Packet)
    requires IsListing(m, listing)
    ensures F.Crosses(RuleInput(listing), F.NameOf(digest), p) <==> CrossesStore(m, digest, p)
  {
    if F.Crosses(RuleInput(listing), F.NameOf(digest), p) {
      var a, b :| a in RuleInput(listing) && b in RuleInput(listing) && InBlock(p.src, a.cidr) && InBlock(p.dst, b.cidr)
                  && F.NameOf(digest)(a) != F.NameOf(digest)(b);
      var k := InputMember(m, listing, a);
      var l := InputMember(m, listing, b);
    }
    if CrossesStore(m, digest, p) {
      var k, l :| k in m && l in m && InBlock(p.src, m[k].cidr) && InBlock(p.dst, m[l].cidr)
                  && F.SetName(m[k].deployment, m[k].network, digest) != F.SetName(m[l].deployment, m[l].network, digest);
      StoreMember(m, listing, k);
      StoreMember(m, listing, l);
      assert F.NameOf(digest)(Project(m[k])) != F.NameOf(digest)(Project(m[l]));
    }
  }

  /** In every state the allocator reaches, whatever ruleset is rendered from any listing
      of the subnets drops exactly the new connections between subnets with different set names. */
  lemma ReachableIsolation(pool: Ipam.Pool, init: Ipam.System, steps: seq<Ipam.Step>, listing: seq<E.Subnet>,
                           rs: F.Ruleset, digest: string -> string, p: F.Packet)
    requires Ipam.Inv(pool, init) && Ipam.Legal(pool, init, steps)
    requires IsListing(Ipam.After(pool, init, steps).state.subnets, listing)
    requires F.Renders(rs, RuleInput(listing), F.NameOf(digest))
    ensures F.Judge(rs, rs.forward, p) == F.Drop <==>
            !p.established && CrossesStore(Ipam.After(pool, init, steps).state.subnets, digest, p)
  {
    Ipam.AllocationsStayDisjoint(pool, init, steps);
    FilterIsExact(pool, Ipam.After(pool, init, steps).state.subnets, listing, rs, digest, p);
  }

  lemma FilterIsExact(pool: Ipam.Pool, m: map<string, E.Subnet>, listing: seq<E.Subnet>,
                      rs: F.Ruleset, digest: string -> string, p: F.Packet)
    requires Ipam.Disjoint(pool, m) && IsListing(m, listing)
    requires F.Renders(rs, RuleInput(listing), F.NameOf(digest))
    ensures F.Judge(rs, rs.forward, p) == F.Drop <==> !p.established && CrossesStore(m, digest, p)
  {
    DisjointIsSeparate(pool, m, listing, F.NameOf(digest));
    F.DropsExactlyCrossings(rs, RuleInput(listing), F.NameOf(digest), p);
    CrossesEither(m, listing, digest, p);
  }

  /** The ruleset is the same whatever order the store lists its subnets in. */
  lemma FilterIgnoresListing(m: map<string, E.Subnet>, a: seq<E.Subnet>, b: seq<E.Subnet>,
                             rs: F.Ruleset, rs': F.Ruleset, digest: string -> string)
    requires IsListing(m, a) && IsListing(m, b)
    requires F.Renders(rs, RuleInput(a), F.NameOf(digest)) && F.Renders(rs', RuleInput(b), F.NameOf(digest))
    ensures rs == rs'
  {
    ListingsPermute(m, a, b);
    PickPermutes(a, b, Any, Project);
    F.RenderIgnoresOrder(rs, rs', RuleInput(a), RuleInput(b), F.NameOf(digest));
  }
}
