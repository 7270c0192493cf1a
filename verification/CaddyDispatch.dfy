/** What the built configuration does with a request: routes are tried in order and the
    first that responds decides. */
module CaddyDispatch {
  import opened Prelude
  import opened Text
  import opened Sorting
  import opened CaddyConfig

  /** The first element that `hit` selects. */
  function First<T>(s: seq<T>, hit: T -> bool): (r: Option<nat>)
    ensures r.Some? ==> r.value < |s| && hit(s[r.value]) && forall j :: 0 <= j < r.value ==> !hit(s[j])
    ensures r.None? ==> forall j :: 0 <= j < |s| ==> !hit(s[j])
  {
    if s == [] then None
    else
      var n := |s| - 1;
      var r := First(s[..n], hit);
      if r.Some? then r else if hit(s[n]) then Some(n) else None
  }

  lemma FirstIs<T>(s: seq<T>, hit: T -> bool, k: nat)
    requires k < |s| && hit(s[k]) && forall j :: 0 <= j < k ==> !hit(s[j])
    ensures First(s, hit) == Some(k)
  {
  }

  lemma FirstBefore<T>(s: seq<T>, le: (T, T) -> bool, hit: T -> bool, k: nat, j: nat)
    requires Sorted(s, le) && First(s, hit) == Some(k) && j < |s| && hit(s[j])
    ensures k == j || le(s[k], s[j])
  {
  }

  lemma {:induction false} FirstConcat<T>(a: seq<T>, b: seq<T>, hit: T -> bool)
    ensures var f, g := First(a, hit), First(b, hit);
            First(a + b, hit) == if f.Some? then f else if g.Some? then Some(|a| + g.value) else None
    decreases b
  {
    if b == [] {
      assert a + b == a;
    } else {
      var n := |b| - 1;
      FirstConcat(a, b[..n], hit);
      assert (a + b)[..|a + b| - 1] == a + b[..n] && (a + b)[|a + b| - 1] == b[n];
    }
  }

  lemma FirstMapped<T, U>(a: seq<T>, b: seq<U>, hit: T -> bool, hit': U -> bool)
    requires |a| == |b| && forall j :: 0 <= j < |a| ==> hit(a[j]) == hit'(b[j])
    ensures First(a, hit) == First(b, hit')
  {
  }

  // ---- Path patterns -------------------------------------------------------------------------

  predicate Glob(p: string) { HasSuffix(p, "*") }

  /** A path with no star but possibly its last byte. Caddy reads other stars by rules
      that are not modelled here. */
  predicate Regular(p: string) { p != "" ==> '*' !in p[..|p| - 1] }

  /** A pattern ending in `*` is a prefix; any other is exact. */
  predicate PatternMatches(p: string, q: string) {
    if Glob(p) then HasPrefix(q, p[..|p| - 1]) else q == p
  }

  predicate Hits(paths: seq<string>, q: string) {
    paths == [] || exists p :: p in paths && PatternMatches(p, q)
  }

  predicate PathHits(p: string, q: string) { Hits(PathMatchers(p), q) }

  /** The literal prefix a declared path stands for. */
  function Reach(p: string): string { if Glob(p) then p[..|p| - 1] else TrimSuffix(p, "/") }

  lemma TrimmedPlain(p: string)
    requires Regular(p) && !Glob(p)
    ensures !Glob(TrimSuffix(p, "/"))
  {
  }

  lemma PrefixOfPrefix(q: string, a: string, b: string)
    requires HasPrefix(q, a + b)
    ensures HasPrefix(q, a)
  {
  }

  /** A plain path covers itself and everything below it, segment by segment; a glob
      covers every path with its prefix. */
  lemma PathHitsMeans(p: string, q: string)
    requires Regular(p)
    ensures PathHits(p, q) <==>
            if Glob(p) then HasPrefix(q, Reach(p)) else q == Reach(p) || HasPrefix(q, Reach(p) + "/")
    ensures PathHits(p, q) ==> HasPrefix(q, Reach(p))
  {
    var e := Reach(p);
    if Glob(p) {
      assert PathMatchers(p) == [p] && p in [p];
    } else {
      assert PathMatchers(p) == [e, e + "/*"];
      assert (e + "/*")[..|e| + 1] == e + "/" && HasSuffix(e + "/*", "*");
      TrimmedPlain(p);
      assert PathHits(p, q) <==> PatternMatches(e, q) || PatternMatches(e + "/*", q);
      if HasPrefix(q, e + "/") {
        PrefixOfPrefix(q, e, "/");
      }
    }
  }

  // ---- Longest prefix first ---------------------------------------------------------------------

  function RouteHits(q: string): Route -> bool { (r: Route) => PathHits(r.path, q) }

  ghost predicate AllRegular(rs: seq<Route>) { forall r :: r in rs ==> Regular(r.path) }

  /** The first route that takes `q` has the longest prefix of all that would. */
  ghost predicate Longest(sorted: seq<Route>, q: string) {
    var k := First(sorted, RouteHits(q));
    k.Some? ==> forall r :: r in sorted && PathHits(r.path, q) ==> |Reach(r.path)| <= |Reach(sorted[k.value].path)|
  }

  /** A glob as long as a plain path that differs from it in the last byte only, and
      sorts after it: the glob is the less specific of the two, yet comes first. */
  predicate Shadows(g: string, p: string) {
    && Glob(g) && !Glob(p) && !HasSuffix(p, "/") && |g| == |p|
    && g[..|g| - 1] == p[..|p| - 1] && '*' < p[|p| - 1]
  }

  predicate HasRoute(rs: seq<Route>, p: string) { exists r :: r in rs && r.path == p }

  /** Some plain path is shadowed by a glob and has no longer spelling to rescue it. */
  ghost predicate Shadowed(rs: seq<Route>) {
    exists g, p :: HasRoute(rs, g) && HasRoute(rs, p) && Shadows(g, p) && !HasRoute(rs, p + "/") && !HasRoute(rs, p + "*")
  }

  lemma {:induction false} LeqByLast(a: string, b: string)
    requires |a| == |b| > 0 && a[..|a| - 1] == b[..|b| - 1]
    ensures Leq(a, b) <==> a[|a| - 1] <= b[|b| - 1]
    decreases a
  {
    if |a| > 1 {
      assert a[0] == a[..|a| - 1][0] == b[..|b| - 1][0] == b[0];
      assert a[1..][..|a| - 2] == a[..|a| - 1][1..] && b[1..][..|b| - 2] == b[..|b| - 1][1..];
      LeqByLast(a[1..], b[1..]);
    }
  }

  /** Of two paths that both take `q`, the one with the longer prefix is written longer,
      unless it is plain and the other a glob that differs in its last byte only. */
  lemma LongerReach(p: string, r: string, q: string)
    requires Regular(p) && Regular(r) && PathHits(p, q) && PathHits(r, q) && |Reach(p)| < |Reach(r)|
    ensures |p| < |r| || (|p| == |r| && Glob(p) && !Glob(r) && !HasSuffix(r, "/") && p[..|p| - 1] == r[..|r| - 1])
  {
    PathHitsMeans(p, q);
    PathHitsMeans(r, q);
    if |p| >= |r| {
      assert |p| == |r| == |Reach(p)| + 1 == |Reach(r)|;
      assert Reach(p) == q[..|Reach(p)|] == r[..|r| - 1];
    }
  }

  /** A longer spelling of a shadowed path takes whatever the path takes. */
  lemma RescueHits(p: string, q: string, t: string)
    requires Regular(p) && !Glob(p) && !HasSuffix(p, "/") && PathHits(p, q) && (t == p + "/" || t == p + "*") && Regular(t)
    ensures PathHits(t, q)
  {
    PathHitsMeans(p, q);
    PathHitsMeans(t, q);
    assert Reach(t) == p;
  }

  lemma Earlier(sorted: seq<Route>, k: nat, t: string) returns (m: nat)
    requires Sorted(sorted, PathLe) && k < |sorted| && HasRoute(sorted, t) && |t| > |sorted[k].path|
    ensures m < k && sorted[m].path == t
  {
    var r :| r in sorted && r.path == t;
    m :| 0 <= m < |sorted| && sorted[m] == r;
  }

  /** A route that comes first although another's prefix is longer shadows that other. */
  lemma FirstShadows(a: Route, r: Route, q: string)
    requires Regular(a.path) && Regular(r.path) && PathHits(a.path, q) && PathHits(r.path, q)
    requires |Reach(a.path)| < |Reach(r.path)| && PathLe(a, r)
    ensures Shadows(a.path, r.path)
  {
    LongerReach(a.path, r.path, q);
    LastOrders(a.path, r.path);
  }

  /** A glob before a plain path that differs in its last byte only shadows it. */
  lemma LastOrders(p: string, r: string)
    requires |p| == |r| && Glob(p) && !Glob(r) && !HasSuffix(r, "/") && p[..|p| - 1] == r[..|r| - 1]
    ensures Shadows(p, r) <==> Leq(p, r)
    ensures Shadows(p, r) ==> !Leq(r, p)
  {
    LeqByLast(p, r);
    LeqByLast(r, p);
    LastStar(p);
    LastStar(r);
  }

  lemma LastStar(p: string)
    ensures Glob(p) <==> p != "" && p[|p| - 1] == '*'
  {
  }

  lemma Rescued(sorted: seq<Route>, g: string, p: string) returns (t: string)
    requires !Shadowed(sorted) && HasRoute(sorted, g) && HasRoute(sorted, p) && Shadows(g, p)
    ensures (t == p + "/" || t == p + "*") && HasRoute(sorted, t)
  {
    t := if HasRoute(sorted, p + "/") then p + "/" else p + "*";
  }

  lemma LongestUnlessShadowed(sorted: seq<Route>, q: string)
    requires Sorted(sorted, PathLe) && AllRegular(sorted) && !Shadowed(sorted)
    ensures Longest(sorted, q)
  {
    var f := First(sorted, RouteHits(q));
    if f.Some? {
      forall r | r in sorted && PathHits(r.path, q) ensures |Reach(r.path)| <= |Reach(sorted[f.value].path)| {
        FirstIsLongest(sorted, q, f.value, r);
      }
    }
  }

  lemma FirstIsLongest(sorted: seq<Route>, q: string, k: nat, r: Route)
    requires Sorted(sorted, PathLe) && AllRegular(sorted) && !Shadowed(sorted)
    requires k < |sorted| && PathHits(sorted[k].path, q) && r in sorted && PathHits(r.path, q)
    requires forall j :: 0 <= j < k ==> !PathHits(sorted[j].path, q)
    ensures |Reach(r.path)| <= |Reach(sorted[k].path)|
  {
    var a := sorted[k];
    if |Reach(a.path)| < |Reach(r.path)| {
      var j :| 0 <= j < |sorted| && sorted[j] == r;
      FirstShadows(a, r, q);
      assert HasRoute(sorted, a.path) && HasRoute(sorted, r.path);
      var t := Rescued(sorted, a.path, r.path);
      var m := Earlier(sorted, k, t);
      RescueHits(r.path, q, t);
    }
  }

  /** Only three spellings have the whole of a request they take as their prefix. */
  lemma ShortReach(p: string, q: string)
    requires Regular(p) && PathHits(p, q) && p != q && p != q + "/" && p != q + "*"
    ensures |Reach(p)| < |q|
  {
    PathHitsMeans(p, q);
    if Glob(p) {
      LastStar(p);
      assert p == Reach(p) + "*";
    } else {
      assert p == Reach(p) || p == Reach(p) + "/";
    }
    assert Reach(p) != q;
  }

  /** The request for a shadowed path is taken by a route with a shorter prefix. */
  lemma ShadowMisroutes(sorted: seq<Route>, g: string, p: string)
    requires Sorted(sorted, PathLe) && AllRegular(sorted)
    requires HasRoute(sorted, g) && HasRoute(sorted, p) && Shadows(g, p)
    requires !HasRoute(sorted, p + "/") && !HasRoute(sorted, p + "*")
    ensures !Longest(sorted, p)
  {
    var rp :| rp in sorted && rp.path == p;
    var rg :| rg in sorted && rg.path == g;
    PathHitsMeans(p, p);
    PathHitsMeans(g, p);
    assert RouteHits(p)(rp) && RouteHits(p)(rg);
    var k := First(sorted, RouteHits(p)).value;
    var j :| 0 <= j < |sorted| && sorted[j] == rg;
    LastOrders(g, p);
    FirstBefore(sorted, PathLe, RouteHits(p), k, j);
    assert sorted[k].path != p && HasRoute(sorted, sorted[k].path);
    ShortReach(sorted[k].path, p);
  }

  /** Dispatch is by longest prefix for every request exactly when no path is shadowed. */
  lemma LongestIffUnshadowed(sorted: seq<Route>)
    requires Sorted(sorted, PathLe) && AllRegular(sorted)
    ensures (forall q :: Longest(sorted, q)) <==> !Shadowed(sorted)
  {
    if Shadowed(sorted) {
      var g, p :| HasRoute(sorted, g) && HasRoute(sorted, p) && Shadows(g, p) && !HasRoute(sorted, p + "/") && !HasRoute(sorted, p + "*");
      ShadowMisroutes(sorted, g, p);
    } else {
      forall q ensures Longest(sorted, q) {
        LongestUnlessShadowed(sorted, q);
      }
    }
  }

  /** Declared paths without globs are never shadowed. */
  lemma PlainNeverShadowed(rs: seq<Route>)
    requires forall r :: r in rs ==> !Glob(r.path)
    ensures !Shadowed(rs)
  {
  }

  /** `/api/` + `*` takes the request for the more specific `/api/x`. */
  lemma GlobShadowsSegment()
    ensures Shadows("/api/*", "/api/x") && |Reach("/api/*")| < |Reach("/api/x")|
  {
  }

  // ---- Stripping -----------------------------------------------------------------------------------

  /** What is left of a stripped request is empty or starts a segment. */
  predicate OnSegment(p: string, q: string)
    requires HasPrefix(q, StripPrefix(p))
  {
    |q| == |StripPrefix(p)| || q[|StripPrefix(p)|] == '/'
  }

  /** Every request a route takes starts with the prefix it strips. */
  lemma StripIsPrefix(p: string, q: string)
    requires Regular(p) && PathHits(p, q)
    ensures HasPrefix(q, StripPrefix(p))
    ensures !Glob(p) || HasSuffix(Reach(p), "/") ==> OnSegment(p, q)
  {
    PathHitsMeans(p, q);
    if Glob(p) {
      assert TrimSuffix(p, "*") == Reach(p);
      var e := StripPrefix(p);
      if HasSuffix(Reach(p), "/") {
        assert Reach(p) == e + "/";
        PrefixOfPrefix(q, e, "/");
        assert q[|e|] == Reach(p)[|e|];
      }
    } else {
      assert StripPrefix(p) == Reach(p);
      if q != Reach(p) {
        assert q[|Reach(p)|] == (Reach(p) + "/")[|Reach(p)|];
      }
    }
  }

  /** Stripping always stops at a segment, except for globs such as `/api*`. */
  lemma StripOnSegmentIff(p: string)
    requires Regular(p)
    ensures (forall q :: PathHits(p, q) ==> HasPrefix(q, StripPrefix(p)) && OnSegment(p, q))
            <==> !Glob(p) || HasSuffix(Reach(p), "/")
  {
    if Glob(p) && !HasSuffix(Reach(p), "/") {
      var q := Reach(p) + "x";
      PathHitsMeans(p, q);
      assert TrimSuffix(p, "*") == Reach(p) == StripPrefix(p);
      assert PathHits(p, q) && q[|Reach(p)|] == 'x';
      assert HasPrefix(q, StripPrefix(p)) && !OnSegment(p, q);
    } else {
      forall q | PathHits(p, q) ensures HasPrefix(q, StripPrefix(p)) && OnSegment(p, q) {
        StripIsPrefix(p, q);
      }
    }
  }
}
