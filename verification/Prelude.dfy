/** Values shared by every module: options, listings of a map in unspecified
    order, and the keyed upserts and cascade removals the stores are built from. */
module Prelude {

  datatype Option<+T> = None | Some(value: T)

  function Min(a: int, b: int): int { if a < b then a else b }

  /** `s` holds the entries of `m`, each exactly once, in the key order `ks`. */
  ghost predicate ListedBy<T>(m: map<string, T>, ks: seq<string>, s: seq<T>) {
    && |ks| == |s|
    && (forall i, j :: 0 <= i < j < |ks| ==> ks[i] != ks[j])
    && (forall k :: k in m ==> k in ks)
    && (forall i :: 0 <= i < |s| ==> ks[i] in m && s[i] == m[ks[i]])
  }

  /** `s` is one of the orders in which a Go map may be ranged over. */
  ghost predicate IsListing<T>(m: map<string, T>, s: seq<T>) {
    exists ks :: ListedBy(m, ks, s)
  }

  /** Ranges over a map; callers learn nothing about the order. */
  method List<T>(m: map<string, T>) returns (s: seq<T>)
    ensures IsListing(m, s)
  {
    s := [];
    var rest := m.Keys;
    ghost var ks: seq<string> := [];
    while rest != {}
      invariant |ks| == |s|
      invariant forall i, j :: 0 <= i < j < |ks| ==> ks[i] != ks[j]
      invariant rest <= m.Keys
      invariant forall k :: k in m <==> k in ks || k in rest
      invariant forall k :: k in ks ==> k !in rest
      invariant forall i :: 0 <= i < |s| ==> ks[i] in m && s[i] == m[ks[i]]
      decreases rest
    {
      var k :| k in rest;
      rest := rest - {k};
      s := s + [m[k]];
      ks := ks + [k];
    }
    assert ListedBy(m, ks, s);
  }

  lemma ListingSound<T>(m: map<string, T>, s: seq<T>, i: nat)
    requires IsListing(m, s) && i < |s|
    ensures exists k :: k in m && m[k] == s[i]
  {
    var ks :| ListedBy(m, ks, s);
    assert ks[i] in m;
  }

  lemma ListingComplete<T>(m: map<string, T>, s: seq<T>, k: string)
    requires IsListing(m, s) && k in m
    ensures m[k] in s
  {
    var ks :| ListedBy(m, ks, s);
    var i :| 0 <= i < |ks| && ks[i] == k;
    assert s[i] == m[k];
  }

  /** Every entry is filed under its own key. */
  ghost predicate Filed<T>(m: map<string, T>, key: T -> string) {
    forall k :: k in m ==> key(m[k]) == k
  }

  ghost predicate SubMap<T>(a: map<string, T>, b: map<string, T>) {
    forall k :: k in a ==> k in b && a[k] == b[k]
  }

  /** The entries of `m` that are not doomed. */
  function Without<T>(m: map<string, T>, doomed: T -> bool): (r: map<string, T>)
    ensures r.Keys <= m.Keys
    ensures forall k :: k in m ==> (k in r <==> !doomed(m[k]))
    ensures forall k :: k in r ==> r[k] == m[k]
  {
    map k | k in m && !doomed(m[k]) :: m[k]
  }

  /** The source's cascade loop: list the store, and remove, by the key computed
      from the entity, every entity that is doomed. Because entries are filed
      under their own keys the outcome does not depend on the listing's order. */
  method RemoveWhere<T>(m: map<string, T>, key: T -> string, doomed: T -> bool) returns (r: map<string, T>)
    requires Filed(m, key)
    ensures r == Without(m, doomed)
  {
    var listing := List(m);
    r := m;
    for i := 0 to |listing|
      invariant r.Keys <= m.Keys
      invariant forall k :: k in r ==> r[k] == m[k]
      invariant forall k :: k in m && k !in r ==> doomed(m[k])
      invariant forall j :: 0 <= j < i && doomed(listing[j]) ==> key(listing[j]) !in r
    {
      ListingSound(m, listing, i);
      if doomed(listing[i]) {
        r := r - {key(listing[i])};
      }
    }
    forall k | k in m && doomed(m[k]) ensures k !in r {
      ListingComplete(m, listing, k);
    }
  }

  lemma RemoveOneMore<T>(m: map<string, T>, gone: set<string>, k: string)
    ensures m - gone - {k} == m - (gone + {k})
  {
  }

  /** The store after upserting `vs` from left to right. */
  function UpsertAll<T>(m: map<string, T>, vs: seq<T>, key: T -> string): (r: map<string, T>)
    ensures Filed(m, key) ==> Filed(r, key)
  {
    if vs == [] then m
    else
      var last := vs[|vs| - 1];
      UpsertAll(m, vs[..|vs| - 1], key)[key(last) := last]
  }

  method UpsertEach<T>(m: map<string, T>, vs: seq<T>, key: T -> string) returns (r: map<string, T>)
    ensures r == UpsertAll(m, vs, key)
  {
    r := m;
    for i := 0 to |vs|
      invariant r == UpsertAll(m, vs[..i], key)
    {
      assert vs[..i + 1][..i] == vs[..i];
      r := r[key(vs[i]) := vs[i]];
    }
    assert vs[..|vs|] == vs;
  }

  /** The last of `vs` with the given key, the one an upsert loop leaves behind. */
  function LastWith<T>(vs: seq<T>, key: T -> string, k: string): (r: Option<T>)
    ensures r.Some? ==> r.value in vs && key(r.value) == k
    ensures r.None? ==> forall v :: v in vs ==> key(v) != k
  {
    if vs == [] then None
    else if key(vs[|vs| - 1]) == k then Some(vs[|vs| - 1])
    else LastWith(vs[..|vs| - 1], key, k)
  }

  lemma {:induction false} UpsertAllAt<T>(m: map<string, T>, vs: seq<T>, key: T -> string, k: string)
    ensures k in UpsertAll(m, vs, key) <==> k in m || LastWith(vs, key, k).Some?
    ensures k in UpsertAll(m, vs, key) ==>
              UpsertAll(m, vs, key)[k] == (if LastWith(vs, key, k).Some? then LastWith(vs, key, k).value else m[k])
  {
    if vs != [] {
      UpsertAllAt(m, vs[..|vs| - 1], key, k);
    }
  }

  /** Re-applying any listing of a store merges that store over what was there. */
  lemma UpsertListing<T>(m0: map<string, T>, m: map<string, T>, s: seq<T>, key: T -> string)
    requires Filed(m, key) && IsListing(m, s)
    ensures UpsertAll(m0, s, key) == m0 + m
  {
    var r := UpsertAll(m0, s, key);
    forall k ensures (k in r <==> k in m0 + m) && (k in r ==> r[k] == (m0 + m)[k]) {
      UpsertAllAt(m0, s, key, k);
      if k in m {
        ListingComplete(m, s, k);
      }
      var last := LastWith(s, key, k);
      if last.Some? {
        var i :| 0 <= i < |s| && s[i] == last.value;
        ListingSound(m, s, i);
      }
    }
  }

  /** Some entry of the store yields the number `x`. */
  ghost predicate Used<T>(m: map<string, T>, f: T -> Option<int>, x: int) {
    exists k :: k in m && f(m[k]) == Some(x)
  }

  lemma UsedBy<T>(m: map<string, T>, f: T -> Option<int>, k: string)
    requires k in m && f(m[k]).Some?
    ensures Used(m, f, f(m[k]).value)
  {
  }

  ghost predicate UsedIn<T>(s: seq<T>, f: T -> Option<int>, x: int) {
    exists i :: 0 <= i < |s| && f(s[i]) == Some(x)
  }

  lemma UsedInListing<T>(m: map<string, T>, f: T -> Option<int>, s: seq<T>, x: int)
    requires IsListing(m, s)
    ensures UsedIn(s, f, x) <==> Used(m, f, x)
  {
  }

  method MarkIn<T>(s: seq<T>, f: T -> Option<int>) returns (r: set<int>)
    ensures forall x :: x in r <==> UsedIn(s, f, x)
  {
    r := {};
    for i := 0 to |s|
      invariant forall x :: x in r ==> UsedIn(s, f, x)
      invariant forall j :: 0 <= j < i && f(s[j]).Some? ==> f(s[j]).value in r
    {
      if f(s[i]).Some? {
        assert f(s[i]) == Some(f(s[i]).value);
        r := r + {f(s[i]).value};
      }
    }
  }

  /** Lists the store and marks every number its entries yield. */
  method MarkUsed<T>(m: map<string, T>, f: T -> Option<int>) returns (r: set<int>)
    ensures forall x :: x in r <==> Used(m, f, x)
  {
    var listing := List(m);
    r := MarkIn(listing, f);
    forall x ensures x in r <==> Used(m, f, x) {
      UsedInListing(m, f, listing, x);
    }
  }

  /** The numbers below `n`. */
  ghost function Below(n: nat): (r: set<int>)
    ensures |r| == n && forall x :: x in r <==> 0 <= x < n
  {
    if n == 0 then {} else Below(n - 1) + {n - 1}
  }

  /** Distinct numbers below `n`, one per entry: all are used exactly when there are `n` entries. */
  lemma {:induction false} AllUsed<T>(m: map<string, T>, f: T -> Option<int>, n: nat)
    requires forall k :: k in m ==> f(m[k]).Some? && 0 <= f(m[k]).value < n
    requires forall k, l :: k in m && l in m && k != l ==> f(m[k]) != f(m[l])
    ensures (forall x :: 0 <= x < n ==> Used(m, f, x)) <==> |m| == n
  {
    var all, used := Below(n), set x | x in Below(n) && Used(m, f, x);
    UsedCount(m, f, used);
    assert all == used + (all - used);
    assert |all| == |used| + |all - used|;
  }

  lemma UsedCount<T>(m: map<string, T>, f: T -> Option<int>, used: set<int>)
    requires forall k :: k in m ==> f(m[k]).Some?
    requires forall k, l :: k in m && l in m && k != l ==> f(m[k]) != f(m[l])
    requires forall x :: x in used <==> Used(m, f, x)
    ensures |used| == |m|
  {
    var g := (k: string) => if k in m && f(m[k]).Some? then f(m[k]).value else 0;
    forall k | k in m ensures g(k) in used {
      UsedBy(m, f, k);
    }
    forall x | x in used ensures exists k :: k in m.Keys && g(k) == x {
      var k :| k in m && f(m[k]) == Some(x);
      assert g(k) == x;
    }
    ImageSize(m.Keys, g, used);
  }

  lemma {:induction false} ImageSize<U>(ks: set<string>, g: string -> U, image: set<U>)
    requires forall k, l :: k in ks && l in ks && k != l ==> g(k) != g(l)
    requires forall k :: k in ks ==> g(k) in image
    requires forall x :: x in image ==> exists k :: k in ks && g(k) == x
    ensures |image| == |ks|
    decreases ks
  {
    if image != {} {
      var x :| x in image;
      var k :| k in ks && g(k) == x;
      forall y | y in image - {x} ensures exists l :: l in ks - {k} && g(l) == y {
        var l :| l in ks && g(l) == y;
        assert l in ks - {k};
      }
      ImageSize(ks - {k}, g, image - {x});
    }
  }

  /** The lowest number in `from..n` that no entry uses. */
  ghost function LowestUnused<T>(m: map<string, T>, f: T -> Option<int>, from: nat, n: nat): (r: Option<nat>)
    requires from <= n
    ensures r.Some? ==> from <= r.value < n && !Used(m, f, r.value)
    ensures r.Some? ==> forall x :: from <= x < r.value ==> Used(m, f, x)
    ensures r.None? ==> forall x :: from <= x < n ==> Used(m, f, x)
    decreases n - from
  {
    if from == n then None else if !Used(m, f, from) then Some(from) else LowestUnused(m, f, from + 1, n)
  }

  /** Walks the candidates in order. */
  method FindUnused<T>(m: map<string, T>, f: T -> Option<int>, n: nat) returns (r: Option<nat>)
    ensures r == LowestUnused(m, f, 0, n)
  {
    var used := MarkUsed(m, f);
    for x := 0 to n
      invariant LowestUnused(m, f, 0, n) == LowestUnused(m, f, x, n)
    {
      assert x in used <==> Used(m, f, x);
      if x !in used {
        return Some(x);
      }
    }
    return None;
  }

  lemma NoneUnusedIffFull<T>(m: map<string, T>, f: T -> Option<int>, n: nat)
    requires forall k :: k in m ==> f(m[k]).Some? && 0 <= f(m[k]).value < n
    requires forall k, l :: k in m && l in m && k != l ==> f(m[k]) != f(m[l])
    ensures LowestUnused(m, f, 0, n).None? <==> |m| == n
  {
    AllUsed(m, f, n);
    var r := LowestUnused(m, f, 0, n);
    assert r.Some? ==> !Used(m, f, r.value);
  }
}
