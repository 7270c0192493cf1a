/** The rendered nftables forward chain, as rules with first-match semantics. */
module Firewall {
  import opened Sorting
  import opened Cidr

  const MAX_SET_NAME := 63

  datatype Subnet = Subnet(deployment: string, network: string, cidr: string)

  function Clean(c: char): char {
    if 'a' <= c <= 'z' || 'A' <= c <= 'Z' || '0' <= c <= '9' || c == '_' then c else '_'
  }

  function Sanitize(s: string): string {
    seq(|s|, i requires 0 <= i < |s| => Clean(s[i]))
  }

  /** The set identifier of a (deployment, network) scope; `digest` gives the first
      eight hex digits of a SHA-1 sum. */
  function SetName(deployment: string, network: string, digest: string -> string): string {
    var net := if network == "" then "_default" else network;
    var full := "dep_net_" + Sanitize(deployment) + "_" + Sanitize(net);
    if |full| <= MAX_SET_NAME then full else full[..16] + "_" + digest(deployment + "/" + net)
  }

  function NameOf(digest: string -> string): Subnet -> string {
    (n: Subnet) => SetName(n.deployment, n.network, digest)
  }

  /** Identifiers always fit nftables' limit. */
  lemma SetNameFits(deployment: string, network: string, digest: string -> string)
    requires forall s :: |digest(s)| == 8
    ensures |SetName(deployment, network, digest)| <= MAX_SET_NAME
  {
  }

  /** Sanitising is not injective: these two scopes share one set. */
  lemma SetNameCollides(digest: string -> string)
    ensures SetName("a", "b-c", digest) == SetName("a-b", "c", digest)
  {
  }

  datatype NamedSet = NamedSet(name: string, cidrs: seq<string>)

  datatype Rule = AcceptEstablished | AcceptWithin(name: string) | DropPool

  /** The table's named sets, its pool set (absent when empty) and its forward chain, policy accept. */
  datatype Ruleset = Ruleset(sets: seq<NamedSet>, pool: seq<string>, forward: seq<Rule>)

  predicate ScopeLe(x: (string, string), y: (string, string)) {
    if x.0 != y.0 then Leq(x.0, y.0) else Leq(x.1, y.1)
  }

  function Scope(n: Subnet): (string, string) { (n.deployment, n.network) }

  predicate SubnetLe(x: Subnet, y: Subnet) { ScopeLe(Scope(x), Scope(y)) }

  lemma ScopePreorder()
    ensures Preorder(ScopeLe)
  {
    forall x, y ensures ScopeLe(x, y) || ScopeLe(y, x) {
      LeqTotal(x.0, y.0);
      LeqTotal(x.1, y.1);
    }
    forall x, y, z | ScopeLe(x, y) && ScopeLe(y, z) ensures ScopeLe(x, z) {
      if x.0 == y.0 && y.0 == z.0 {
        LeqTransitive(x.1, y.1, z.1);
      } else {
        LeqTotal(x.0, x.0);
        LeqTotal(z.0, z.0);
        LeqTransitive(x.0, y.0, z.0);
        if x.0 == z.0 {
          LeqAntisymmetric(x.0, y.0);
        }
      }
    }
  }

  lemma SubnetPreorder()
    ensures Preorder(SubnetLe)
  {
    ScopePreorder();
    assert forall x, y :: SubnetLe(x, y) == ScopeLe(Scope(x), Scope(y));
  }

  lemma ScopeTieFree(s: seq<(string, string)>)
    ensures TieFree(s, ScopeLe)
  {
    forall x, y | x in s && y in s && ScopeLe(x, y) && ScopeLe(y, x) ensures x == y {
      if x.0 != y.0 {
        LeqAntisymmetric(x.0, y.0);
      } else {
        LeqAntisymmetric(x.1, y.1);
      }
    }
  }

  /** The distinct strings of `names` in order of first appearance. */
  function Distinct(names: seq<string>): (r: seq<string>)
    ensures NoRepeat(r) && forall n :: n in r <==> n in names
  {
    if names == [] then []
    else
      var k := |names| - 1;
      var p := Distinct(names[..k]);
      assert names == names[..k] + [names[k]];
      if names[k] in p then p else p + [names[k]]
  }

  function CidrOf(n: Subnet): string { n.cidr }
  function Named(nm: Subnet -> string, name: string): Subnet -> bool { (n: Subnet) => nm(n) == name }

  function Names(sets: seq<NamedSet>): seq<string> {
    seq(|sets|, i requires 0 <= i < |sets| => sets[i].name)
  }

  function Chain(names: seq<string>, pooled: bool): seq<Rule> {
    [AcceptEstablished] + seq(|names|, i requires 0 <= i < |names| => AcceptWithin(names[i]))
      + if pooled then [DropPool] else []
  }

  /** What rendering `subnets` with set names `nm` produces, whichever way ties between
      subnets of one scope were ordered by the sort. */
  ghost predicate IsRender(rs: Ruleset, subnets: seq<Subnet>, sorted: seq<Subnet>, nm: Subnet -> string) {
    && Sorted(sorted, SubnetLe) && multiset(sorted) == multiset(subnets)
    && Names(rs.sets) == Distinct(Pick(sorted, Any, nm))
    && (forall i :: 0 <= i < |rs.sets| ==> IsGroup(rs.sets[i], sorted, nm))
    && Sorted(rs.pool, Leq) && multiset(rs.pool) == multiset(Pick(sorted, Any, CidrOf))
    && rs.forward == Chain(Names(rs.sets), rs.pool != [])
  }

  ghost predicate Renders(rs: Ruleset, subnets: seq<Subnet>, nm: Subnet -> string) {
    exists sorted :: IsRender(rs, subnets, sorted, nm)
  }

  ghost predicate SortedFrom(a: seq<string>, b: seq<string>) { Sorted(a, Leq) && multiset(a) == multiset(b) }

  /** One named set: the sorted blocks of every subnet with that name. */
  ghost predicate IsGroup(g: NamedSet, sorted: seq<Subnet>, nm: Subnet -> string) {
    SortedFrom(g.cidrs, Pick(sorted, Named(nm, g.name), CidrOf))
  }

  // ---- Rendering ------------------------------------------------------------------------

  function Under(s: seq<Subnet>, nm: Subnet -> string): string -> seq<string> {
    (name: string) => Pick(s, Named(nm, name), CidrOf)
  }

  /** The blocks of each name in `order`, one group after the other. */
  ghost function Grouped(order: seq<string>, of: string -> seq<string>): seq<string> {
    if order == [] then [] else var k := |order| - 1; Grouped(order[..k], of) + of(order[k])
  }

  lemma {:induction false} GroupedAppend(order: seq<string>, of: string -> seq<string>, of': string -> seq<string>, name: string, x: string)
    requires NoRepeat(order) && forall m :: of'(m) == of(m) + if m == name then [x] else []
    ensures multiset(Grouped(order, of')) == multiset(Grouped(order, of)) + if name in order then multiset{x} else multiset{}
    decreases order
  {
    if order != [] {
      LastOnce(order, name);
      GroupedAppend(order[..|order| - 1], of, of', name, x);
    }
  }

  lemma GroupNext(s: seq<Subnet>, n: Subnet, nm: Subnet -> string, name: string)
    ensures Under(s + [n], nm)(name) == Under(s, nm)(name) + if name == nm(n) then [n.cidr] else []
  {
  }

  lemma BlocksNext(s: seq<Subnet>, n: Subnet)
    ensures multiset(Pick(s + [n], Any, CidrOf)) == multiset(Pick(s, Any, CidrOf)) + multiset{n.cidr}
  {
  }

  /** Grouping loses no block and repeats none. */
  lemma {:induction false} GroupedCovers(order: seq<string>, sorted: seq<Subnet>, nm: Subnet -> string)
    requires NoRepeat(order) && forall n :: n in sorted ==> nm(n) in order
    ensures multiset(Grouped(order, Under(sorted, nm))) == multiset(Pick(sorted, Any, CidrOf))
    decreases sorted
  {
    if sorted == [] {
      GroupedEmpty(order, nm);
    } else {
      var k := |sorted| - 1;
      var s, n := sorted[..k], sorted[k];
      assert sorted == s + [n] && nm(n) in order;
      GroupedCovers(order, s, nm);
      forall m ensures Under(s + [n], nm)(m) == Under(s, nm)(m) + if m == nm(n) then [n.cidr] else [] {
        GroupNext(s, n, nm, m);
      }
      GroupedAppend(order, Under(s, nm), Under(s + [n], nm), nm(n), n.cidr);
      BlocksNext(s, n);
    }
  }

  lemma {:induction false} GroupedEmpty(order: seq<string>, nm: Subnet -> string)
    ensures Grouped(order, Under([], nm)) == []
    decreases order
  {
    if order != [] {
      GroupedEmpty(order[..|order| - 1], nm);
    }
  }

  method SortSubnets(s: seq<Subnet>) returns (r: seq<Subnet>)
    ensures Sorted(r, SubnetLe) && multiset(r) == multiset(s)
  {
    SubnetPreorder();
    r := Sort(s, SubnetLe);
  }

  ghost predicate AreGroups(sets: seq<NamedSet>, order: seq<string>, of: string -> seq<string>) {
    |sets| == |order| && forall j :: 0 <= j < |sets| ==> sets[j].name == order[j] && SortedFrom(sets[j].cidrs, of(order[j]))
  }

  method BuildSets(order: seq<string>, groups: map<string, seq<string>>, ghost of: string -> seq<string>)
    returns (sets: seq<NamedSet>, all: seq<string>)
    requires forall n :: n in order ==> n in groups && groups[n] == of(n)
    ensures AreGroups(sets, order, of) && multiset(all) == multiset(Grouped(order, of))
  {
    sets, all := [], [];
    for i := 0 to |order|
      invariant AreGroups(sets, order[..i], of) && multiset(all) == multiset(Grouped(order[..i], of))
    {
      var cidrs := SortStrings(groups[order[i]]);
      BuildNext(order[..i], order[i], sets, all, cidrs, of);
      assert order[..i + 1] == order[..i] + [order[i]];
      sets := sets + [NamedSet(order[i], cidrs)];
      all := all + cidrs;
    }
    assert order[..|order|] == order;
  }

  lemma BuildNext(order: seq<string>, name: string, sets: seq<NamedSet>, all: seq<string>, cidrs: seq<string>, of: string -> seq<string>)
    requires AreGroups(sets, order, of) && multiset(all) == multiset(Grouped(order, of)) && SortedFrom(cidrs, of(name))
    ensures AreGroups(sets + [NamedSet(name, cidrs)], order + [name], of)
    ensures multiset(all + cidrs) == multiset(Grouped(order + [name], of))
  {
    assert (order + [name])[..|order|] == order;
  }

  lemma SetsAreGroups(sets: seq<NamedSet>, order: seq<string>, sorted: seq<Subnet>, nm: Subnet -> string)
    requires AreGroups(sets, order, Under(sorted, nm))
    ensures Names(sets) == order && forall i :: 0 <= i < |sets| ==> IsGroup(sets[i], sorted, nm)
  {
  }

  /** Sorts by scope, groups blocks under set names, sorts each group and the pool. */
  method RenderNamed(subnets: seq<Subnet>, nm: Subnet -> string) returns (rs: Ruleset)
    ensures Renders(rs, subnets, nm)
  {
    var sorted := SortSubnets(subnets);
    var order, groups := Group(sorted, nm);
    var sets, all := BuildSets(order, groups, Under(sorted, nm));
    OrderCovers(sorted, nm);
    GroupedCovers(order, sorted, nm);
    var pool := SortStrings(all);
    SetsAreGroups(sets, order, sorted, nm);
    rs := Ruleset(sets, pool, Chain(order, pool != []));
    assert IsRender(rs, subnets, sorted, nm);
  }

  lemma OrderCovers(sorted: seq<Subnet>, nm: Subnet -> string)
    ensures forall n :: n in sorted ==> nm(n) in Distinct(Pick(sorted, Any, nm))
  {
  }

  /** Each name in `order` has its group. */
  ghost predicate Groups(order: seq<string>, groups: map<string, seq<string>>, of: string -> seq<string>) {
    (forall n :: n in groups <==> n in order) && forall n :: n in groups ==> groups[n] == of(n)
  }

  /** The set order and the groups after the subnets of `s`. */
  ghost predicate IsGrouping(order: seq<string>, groups: map<string, seq<string>>, s: seq<Subnet>, nm: Subnet -> string) {
    order == Distinct(Pick(s, Any, nm)) && Groups(order, groups, Under(s, nm))
  }

  method Group(sorted: seq<Subnet>, nm: Subnet -> string) returns (order: seq<string>, groups: map<string, seq<string>>)
    ensures IsGrouping(order, groups, sorted, nm)
  {
    order, groups := [], map[];
    for i := 0 to |sorted|
      invariant IsGrouping(order, groups, sorted[..i], nm)
    {
      var n, name := sorted[i], nm(sorted[i]);
      GroupingNext(order, groups, sorted[..i], n, nm);
      assert sorted[..i] + [n] == sorted[..i + 1];
      if name !in groups {
        order := order + [name];
        groups := groups[name := [n.cidr]];
      } else {
        groups := groups[name := groups[name] + [n.cidr]];
      }
    }
    assert sorted[..|sorted|] == sorted;
  }

  lemma GroupsNext(order: seq<string>, groups: map<string, seq<string>>, of: string -> seq<string>, of': string -> seq<string>, name: string, x: string)
    requires Groups(order, groups, of)
    requires forall m :: of'(m) == of(m) + if m == name then [x] else []
    requires name !in groups ==> of(name) == []
    ensures if name !in groups then Groups(order + [name], groups[name := [x]], of')
            else Groups(order, groups[name := groups[name] + [x]], of')
  {
  }

  lemma GroupingNext(order: seq<string>, groups: map<string, seq<string>>, s: seq<Subnet>, n: Subnet, nm: Subnet -> string)
    requires IsGrouping(order, groups, s, nm)
    ensures var name := nm(n);
            if name !in groups then IsGrouping(order + [name], groups[name := [n.cidr]], s + [n], nm)
            else IsGrouping(order, groups[name := groups[name] + [n.cidr]], s + [n], nm)
  {
    OrderNext(s, n, nm);
    if nm(n) !in groups {
      NoGroup(s, nm, nm(n));
    }
    forall m ensures Under(s + [n], nm)(m) == Under(s, nm)(m) + if m == nm(n) then [n.cidr] else [] {
      GroupNext(s, n, nm, m);
    }
    GroupsNext(order, groups, Under(s, nm), Under(s + [n], nm), nm(n), n.cidr);
  }

  lemma OrderNext(s: seq<Subnet>, n: Subnet, nm: Subnet -> string)
    ensures var seen := Distinct(Pick(s, Any, nm));
            Distinct(Pick(s + [n], Any, nm)) == if nm(n) in seen then seen else seen + [nm(n)]
  {
  }

  lemma NoGroup(s: seq<Subnet>, nm: Subnet -> string, name: string)
    requires name !in Distinct(Pick(s, Any, nm))
    ensures Pick(s, Named(nm, name), CidrOf) == []
  {
  }

  method Render(subnets: seq<Subnet>, digest: string -> string) returns (rs: Ruleset)
    ensures Renders(rs, subnets, NameOf(digest))
  {
    rs := RenderNamed(subnets, NameOf(digest));
  }

  // ---- The ruleset does not depend on the order of the subnets --------------------------------

  /** Set names depend on the scope alone. */
  ghost predicate ByScope(nm: Subnet -> string) {
    forall m, n :: Scope(m) == Scope(n) ==> nm(m) == nm(n)
  }

  lemma {:induction false} PickAll<U>(s: seq<Subnet>, f: Subnet -> U)
    ensures Pick(s, Any, f) == seq(|s|, i requires 0 <= i < |s| => f(s[i]))
  {
    if s != [] {
      PickAll(s[..|s| - 1], f);
    }
  }

  lemma SortedScopes(sorted: seq<Subnet>)
    requires Sorted(sorted, SubnetLe)
    ensures Sorted(Pick(sorted, Any, Scope), ScopeLe)
  {
    PickAll(sorted, Scope);
  }

  lemma SameNames(a: seq<Subnet>, b: seq<Subnet>, nm: Subnet -> string)
    requires Sorted(a, SubnetLe) && Sorted(b, SubnetLe) && multiset(a) == multiset(b) && ByScope(nm)
    ensures Pick(a, Any, nm) == Pick(b, Any, nm)
  {
    SortedScopes(a);
    SortedScopes(b);
    PickPermutes(a, b, Any, Scope);
    ScopeTieFree(Pick(a, Any, Scope));
    SortedUnique(Pick(a, Any, Scope), Pick(b, Any, Scope), ScopeLe);
    NamesFromScopes(a, b, nm);
  }

  lemma NamesFromScopes(a: seq<Subnet>, b: seq<Subnet>, nm: Subnet -> string)
    requires Pick(a, Any, Scope) == Pick(b, Any, Scope) && ByScope(nm)
    ensures Pick(a, Any, nm) == Pick(b, Any, nm)
  {
    PickAll(a, Scope);
    PickAll(b, Scope);
    PickAll(a, nm);
    PickAll(b, nm);
    assert |a| == |b|;
    forall i | 0 <= i < |a| ensures nm(a[i]) == nm(b[i]) {
      assert Pick(a, Any, Scope)[i] == Pick(b, Any, Scope)[i];
    }
  }

  lemma SameGroup(g: NamedSet, h: NamedSet, a: seq<Subnet>, b: seq<Subnet>, nm: Subnet -> string)
    requires IsGroup(g, a, nm) && IsGroup(h, b, nm) && g.name == h.name && multiset(a) == multiset(b)
    ensures g == h
  {
    PickPermutes(a, b, Named(nm, g.name), CidrOf);
    LeqTieFree(g.cidrs);
    SortedUnique(g.cidrs, h.cidrs, Leq);
  }

  /** Two renderings of the same subnets, listed in any order, are the same ruleset. */
  lemma RenderIgnoresOrder(rs: Ruleset, rs': Ruleset, a: seq<Subnet>, b: seq<Subnet>, nm: Subnet -> string)
    requires Renders(rs, a, nm) && Renders(rs', b, nm) && multiset(a) == multiset(b) && ByScope(nm)
    ensures rs == rs'
  {
    var sa :| IsRender(rs, a, sa, nm);
    var sb :| IsRender(rs', b, sb, nm);
    SameNames(sa, sb, nm);
    assert |rs.sets| == |Names(rs.sets)| == |Names(rs'.sets)| == |rs'.sets|;
    forall i | 0 <= i < |rs.sets| ensures rs.sets[i] == rs'.sets[i] {
      assert Names(rs.sets)[i] == Names(rs'.sets)[i];
      SameGroup(rs.sets[i], rs'.sets[i], sa, sb, nm);
    }
    PickPermutes(sa, sb, Any, CidrOf);
    LeqTieFree(rs.pool);
    SortedUnique(rs.pool, rs'.pool, Leq);
  }

  // ---- Isolation -------------------------------------------------------------------------

  datatype Packet = Packet(src: Address, dst: Address, established: bool)

  datatype Verdict = Accept | Drop

  ghost predicate InAny(x: Address, cidrs: seq<string>) {
    exists c :: c in cidrs && InBlock(x, c)
  }

  ghost predicate InSet(rs: Ruleset, name: string, x: Address) {
    exists i :: 0 <= i < |rs.sets| && rs.sets[i].name == name && InAny(x, rs.sets[i].cidrs)
  }

  ghost predicate Matches(rs: Ruleset, rule: Rule, p: Packet) {
    match rule
    case AcceptEstablished => p.established
    case AcceptWithin(name) => InSet(rs, name, p.src) && InSet(rs, name, p.dst)
    case DropPool => InAny(p.src, rs.pool) && InAny(p.dst, rs.pool)
  }

  /** The first matching rule decides; the chain's policy is accept. */
  ghost function Judge(rs: Ruleset, rules: seq<Rule>, p: Packet): Verdict {
    if rules == [] then Accept
    else if Matches(rs, rules[0], p) then (if rules[0].DropPool? then Drop else Accept)
    else Judge(rs, rules[1..], p)
  }

  /** A chain of accepts ending with at most one drop drops only what no accept matches. */
  lemma {:induction false} JudgeChain(rs: Ruleset, rules: seq<Rule>, p: Packet)
    requires forall i :: 0 <= i < |rules| - 1 ==> !rules[i].DropPool?
    ensures Judge(rs, rules, p) == Drop <==>
            && rules != [] && rules[|rules| - 1].DropPool? && Matches(rs, DropPool, p)
            && forall i :: 0 <= i < |rules| - 1 ==> !Matches(rs, rules[i], p)
    decreases rules
  {
    if rules != [] && !Matches(rs, rules[0], p) {
      JudgeChain(rs, rules[1..], p);
      assert forall i :: 1 <= i < |rules| - 1 ==> rules[i] == rules[1..][i - 1];
      if |rules| > 1 {
        assert rules[1..][|rules[1..]| - 1] == rules[|rules| - 1];
        assert forall i :: 0 <= i < |rules[1..]| - 1 ==> rules[1..][i] == rules[i + 1];
      }
    }
  }

  /** `x` lies in the block of some subnet that `nm` names `name`. */
  ghost predicate Home(subnets: seq<Subnet>, nm: Subnet -> string, x: Address, name: string) {
    exists n :: n in subnets && nm(n) == name && InBlock(x, n.cidr)
  }

  lemma GroupHolds(g: NamedSet, subnets: seq<Subnet>, sorted: seq<Subnet>, nm: Subnet -> string, x: Address)
    requires IsGroup(g, sorted, nm) && multiset(sorted) == multiset(subnets)
    ensures InAny(x, g.cidrs) <==> Home(subnets, nm, x, g.name)
  {
    var picked := Pick(sorted, Named(nm, g.name), CidrOf);
    if InAny(x, g.cidrs) {
      var c :| c in g.cidrs && InBlock(x, c);
      SameMembers(g.cidrs, picked, c);
      PickMember(sorted, Named(nm, g.name), CidrOf, c);
      var n :| n in sorted && Named(nm, g.name)(n) && CidrOf(n) == c;
      SameMembers(sorted, subnets, n);
    }
    if Home(subnets, nm, x, g.name) {
      var n :| n in subnets && nm(n) == g.name && InBlock(x, n.cidr);
      SameMembers(sorted, subnets, n);
      PickMember(sorted, Named(nm, g.name), CidrOf, n.cidr);
      SameMembers(g.cidrs, picked, n.cidr);
    }
  }

  /** A named set holds exactly the addresses of the subnets with that name. */
  lemma SetHolds(rs: Ruleset, subnets: seq<Subnet>, sorted: seq<Subnet>, nm: Subnet -> string, name: string, x: Address)
    requires IsRender(rs, subnets, sorted, nm)
    ensures InSet(rs, name, x) <==> Home(subnets, nm, x, name)
    ensures Home(subnets, nm, x, name) ==> exists i :: 0 <= i < |rs.sets| && rs.sets[i].name == name
  {
    if InSet(rs, name, x) {
      var i :| 0 <= i < |rs.sets| && rs.sets[i].name == name && InAny(x, rs.sets[i].cidrs);
      GroupHolds(rs.sets[i], subnets, sorted, nm, x);
    }
    if Home(subnets, nm, x, name) {
      var n :| n in subnets && nm(n) == name && InBlock(x, n.cidr);
      SameMembers(sorted, subnets, n);
      PickMember(sorted, Any, nm, name);
      var i :| 0 <= i < |rs.sets| && Names(rs.sets)[i] == name;
      GroupHolds(rs.sets[i], subnets, sorted, nm, x);
    }
  }

  ghost predicate InSome(subnets: seq<Subnet>, x: Address) {
    exists n :: n in subnets && InBlock(x, n.cidr)
  }

  lemma PoolHolds(rs: Ruleset, subnets: seq<Subnet>, sorted: seq<Subnet>, nm: Subnet -> string, x: Address)
    requires IsRender(rs, subnets, sorted, nm)
    ensures InAny(x, rs.pool) <==> InSome(subnets, x)
  {
    var picked := Pick(sorted, Any, CidrOf);
    if InAny(x, rs.pool) {
      var c :| c in rs.pool && InBlock(x, c);
      SameMembers(rs.pool, picked, c);
      PickMember(sorted, Any, CidrOf, c);
      var n :| n in sorted && Any(n) && CidrOf(n) == c;
      SameMembers(sorted, subnets, n);
    }
    if InSome(subnets, x) {
      var n :| n in subnets && InBlock(x, n.cidr);
      SameMembers(sorted, subnets, n);
      PickMember(sorted, Any, CidrOf, n.cidr);
      SameMembers(rs.pool, picked, n.cidr);
    }
  }

  /** No address lies in two subnets with different set names. */
  ghost predicate Separate(subnets: seq<Subnet>, nm: Subnet -> string) {
    forall m, n, x :: m in subnets && n in subnets && InBlock(x, m.cidr) && InBlock(x, n.cidr) ==> nm(m) == nm(n)
  }

  /** Source and destination lie in subnets with different set names. */
  ghost predicate Crosses(subnets: seq<Subnet>, nm: Subnet -> string, p: Packet) {
    exists m, n :: m in subnets && n in subnets && InBlock(p.src, m.cidr) && InBlock(p.dst, n.cidr) && nm(m) != nm(n)
  }

  /** Some set holds both ends of the packet. */
  ghost predicate SharesSet(subnets: seq<Subnet>, nm: Subnet -> string, p: Packet) {
    exists name :: Home(subnets, nm, p.src, name) && Home(subnets, nm, p.dst, name)
  }

  lemma CrossesIff(subnets: seq<Subnet>, nm: Subnet -> string, p: Packet)
    requires Separate(subnets, nm)
    ensures Crosses(subnets, nm, p) <==> InSome(subnets, p.src) && InSome(subnets, p.dst) && !SharesSet(subnets, nm, p)
  {
    if InSome(subnets, p.src) && InSome(subnets, p.dst) && !SharesSet(subnets, nm, p) {
      var m :| m in subnets && InBlock(p.src, m.cidr);
      var n :| n in subnets && InBlock(p.dst, n.cidr);
      assert Home(subnets, nm, p.src, nm(m)) && Home(subnets, nm, p.dst, nm(n));
    }
  }

  /** Some accept rule of the named sets matches. */
  ghost predicate SomeAccept(rs: Ruleset, p: Packet) {
    exists i :: 0 <= i < |rs.sets| && InSet(rs, rs.sets[i].name, p.src) && InSet(rs, rs.sets[i].name, p.dst)
  }

  lemma AcceptIsShared(rs: Ruleset, subnets: seq<Subnet>, sorted: seq<Subnet>, nm: Subnet -> string, p: Packet)
    requires IsRender(rs, subnets, sorted, nm) && SomeAccept(rs, p)
    ensures SharesSet(subnets, nm, p)
  {
    var i :| 0 <= i < |rs.sets| && InSet(rs, rs.sets[i].name, p.src) && InSet(rs, rs.sets[i].name, p.dst);
    SetHolds(rs, subnets, sorted, nm, rs.sets[i].name, p.src);
    SetHolds(rs, subnets, sorted, nm, rs.sets[i].name, p.dst);
  }

  lemma SharedIsAccepted(rs: Ruleset, subnets: seq<Subnet>, sorted: seq<Subnet>, nm: Subnet -> string, p: Packet)
    requires IsRender(rs, subnets, sorted, nm) && SharesSet(subnets, nm, p)
    ensures SomeAccept(rs, p)
  {
    var name :| Home(subnets, nm, p.src, name) && Home(subnets, nm, p.dst, name);
    SetHolds(rs, subnets, sorted, nm, name, p.src);
    SetHolds(rs, subnets, sorted, nm, name, p.dst);
    var i :| 0 <= i < |rs.sets| && rs.sets[i].name == name;
  }

  /** What the chain's rules amount to. */
  lemma ChainVerdict(rs: Ruleset, p: Packet)
    requires rs.forward == Chain(Names(rs.sets), rs.pool != [])
    ensures Judge(rs, rs.forward, p) == Drop <==>
            !p.established && InAny(p.src, rs.pool) && InAny(p.dst, rs.pool) && !SomeAccept(rs, p)
  {
    JudgeChain(rs, rs.forward, p);
    var k := |rs.sets|;
    assert |Names(rs.sets)| == k && rs.forward[0] == AcceptEstablished;
    forall i | 0 <= i < k ensures rs.forward[i + 1] == AcceptWithin(rs.sets[i].name) {
    }
    if rs.pool != [] {
      assert |rs.forward| == k + 2 && rs.forward[k + 1] == DropPool;
      assert Matches(rs, rs.forward[0], p) <==> p.established;
      if SomeAccept(rs, p) {
        var i :| 0 <= i < k && InSet(rs, rs.sets[i].name, p.src) && InSet(rs, rs.sets[i].name, p.dst);
        assert Matches(rs, rs.forward[i + 1], p);
      }
      if j :| 1 <= j < k + 1 && Matches(rs, rs.forward[j], p) {
        assert rs.forward[j] == AcceptWithin(rs.sets[j - 1].name);
      }
    } else {
      assert !InAny(p.src, rs.pool);
      assert |rs.forward| == k + 1;
    }
  }

  /** The forward chain drops a packet exactly when it opens a connection between two
      subnets whose set names differ. Established traffic, traffic within one set on
      any hosts, and anything with an end outside the subnets is accepted. */
  lemma DropsExactlyCrossings(rs: Ruleset, subnets: seq<Subnet>, nm: Subnet -> string, p: Packet)
    requires Renders(rs, subnets, nm) && Separate(subnets, nm)
    ensures Judge(rs, rs.forward, p) == Drop <==> !p.established && Crosses(subnets, nm, p)
  {
    var sorted :| IsRender(rs, subnets, sorted, nm);
    ChainVerdict(rs, p);
    PoolHolds(rs, subnets, sorted, nm, p.src);
    PoolHolds(rs, subnets, sorted, nm, p.dst);
    assert SomeAccept(rs, p) <==> SharesSet(subnets, nm, p) by {
      if SomeAccept(rs, p) {
        AcceptIsShared(rs, subnets, sorted, nm, p);
      }
      if SharesSet(subnets, nm, p) {
        SharedIsAccepted(rs, subnets, sorted, nm, p);
      }
    }
    CrossesIff(subnets, nm, p);
  }
}
