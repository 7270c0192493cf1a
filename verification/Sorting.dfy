/** String order and the sorts the builders rely on. Go's sort.Slice is not stable,
    so callers of `Sort` learn only that the result is a sorted permutation. */
module Sorting {
  import opened Prelude

  /** Byte-wise lexicographic order. */
  predicate Leq(a: string, b: string) {
    a == "" || (b != "" && (a[0] < b[0] || (a[0] == b[0] && Leq(a[1..], b[1..]))))
  }

  lemma LeqTotal(a: string, b: string)
    ensures Leq(a, b) || Leq(b, a)
  {
  }

  lemma {:induction false} LeqTransitive(a: string, b: string, c: string)
    requires Leq(a, b) && Leq(b, c)
    ensures Leq(a, c)
    decreases a
  {
    if a != "" && a[0] == b[0] == c[0] {
      LeqTransitive(a[1..], b[1..], c[1..]);
    }
  }

  lemma {:induction false} LeqAntisymmetric(a: string, b: string)
    requires Leq(a, b) && Leq(b, a)
    ensures a == b
    decreases a
  {
    if a != "" && b != "" {
      LeqAntisymmetric(a[1..], b[1..]);
      assert a == [a[0]] + a[1..] && b == [b[0]] + b[1..];
    }
  }

  ghost predicate Preorder<T(!new)>(le: (T, T) -> bool) {
    && (forall x, y :: le(x, y) || le(y, x))
    && (forall x, y, z :: le(x, y) && le(y, z) ==> le(x, z))
  }

  ghost predicate Sorted<T>(s: seq<T>, le: (T, T) -> bool) {
    forall i, j :: 0 <= i < j < |s| ==> le(s[i], s[j])
  }

  /** Ties in `s` are between equal elements only. */
  ghost predicate TieFree<T>(s: seq<T>, le: (T, T) -> bool) {
    forall x, y :: x in s && y in s && le(x, y) && le(y, x) ==> x == y
  }

  lemma LeqPreorder()
    ensures Preorder(Leq)
  {
    forall x, y ensures Leq(x, y) || Leq(y, x) {
      LeqTotal(x, y);
    }
    forall x, y, z | Leq(x, y) && Leq(y, z) ensures Leq(x, z) {
      LeqTransitive(x, y, z);
    }
  }

  lemma LeqTieFree(s: seq<string>)
    ensures TieFree(s, Leq)
  {
    forall x, y | x in s && y in s && Leq(x, y) && Leq(y, x) ensures x == y {
      LeqAntisymmetric(x, y);
    }
  }

  method Insert<T(!new)>(s: seq<T>, x: T, le: (T, T) -> bool) returns (r: seq<T>)
    requires Preorder(le) && Sorted(s, le)
    ensures Sorted(r, le) && multiset(r) == multiset(s) + multiset{x}
  {
    var k := |s|;
    while k > 0 && !le(s[k - 1], x)
      invariant 0 <= k <= |s|
      invariant forall i :: k <= i < |s| ==> le(x, s[i])
    {
      k := k - 1;
    }
    r := s[..k] + [x] + s[k..];
    assert s == s[..k] + s[k..];
    InsertSorted(s, x, k, le);
  }

  lemma InsertSorted<T(!new)>(s: seq<T>, x: T, k: nat, le: (T, T) -> bool)
    requires Preorder(le) && Sorted(s, le) && k <= |s|
    requires k > 0 ==> le(s[k - 1], x)
    requires forall i :: k <= i < |s| ==> le(x, s[i])
    ensures Sorted(s[..k] + [x] + s[k..], le)
  {
  }

  method Sort<T(!new)>(s: seq<T>, le: (T, T) -> bool) returns (r: seq<T>)
    requires Preorder(le)
    ensures Sorted(r, le) && multiset(r) == multiset(s)
  {
    r := [];
    for i := 0 to |s|
      invariant Sorted(r, le) && multiset(r) == multiset(s[..i])
    {
      r := Insert(r, s[i], le);
      assert s[..i + 1] == s[..i] + [s[i]];
    }
    assert s[..|s|] == s;
  }

  method SortStrings(s: seq<string>) returns (r: seq<string>)
    ensures Sorted(r, Leq) && multiset(r) == multiset(s)
  {
    LeqPreorder();
    r := Sort(s, Leq);
  }

  /** With ties between equal elements only, a multiset has one sorted order. */
  lemma {:induction false} SortedUnique<T>(a: seq<T>, b: seq<T>, le: (T, T) -> bool)
    requires Sorted(a, le) && Sorted(b, le) && TieFree(a, le) && multiset(a) == multiset(b)
    ensures a == b
    decreases a
  {
    assert |a| == |multiset(a)| == |multiset(b)| == |b|;
    if a != [] {
      SameHead(a, b, le);
      TailMultiset(a);
      TailMultiset(b);
      SortedUnique(a[1..], b[1..], le);
      assert a == [a[0]] + a[1..] && b == [b[0]] + b[1..];
    }
  }

  lemma TailMultiset<T>(a: seq<T>)
    requires a != []
    ensures multiset(a[1..]) == multiset(a) - multiset{a[0]}
    ensures forall x :: x in a[1..] ==> x in a
  {
    assert a == [a[0]] + a[1..];
  }

  lemma SameHead<T>(a: seq<T>, b: seq<T>, le: (T, T) -> bool)
    requires Sorted(a, le) && Sorted(b, le) && TieFree(a, le) && multiset(a) == multiset(b) && |a| == |b| > 0
    ensures a[0] == b[0]
  {
    assert a[0] in multiset(b) && b[0] in multiset(a);
    assert a[0] in b && b[0] in a;
    var i :| 0 <= i < |b| && b[i] == a[0];
    var j :| 0 <= j < |a| && a[j] == b[0];
    assert i == 0 || le(b[0], a[0]);
    assert j == 0 || le(a[0], b[0]);
  }

  lemma SameMembers<T>(a: seq<T>, b: seq<T>, x: T)
    requires multiset(a) == multiset(b)
    ensures x in a <==> x in b
  {
    assert x in a <==> x in multiset(a);
    assert x in b <==> x in multiset(b);
  }

  // ---- Selecting and mapping --------------------------------------------------------------

  function Any<T>(x: T): bool { true }
  function Same<T>(x: T): T { x }

  /** `f` of the elements that `keep` selects, in order. */
  function Pick<T, U>(s: seq<T>, keep: T -> bool, f: T -> U): seq<U> {
    if s == [] then []
    else
      var n := |s| - 1;
      Pick(s[..n], keep, f) + if keep(s[n]) then [f(s[n])] else []
  }

  lemma {:induction false} PickConcat<T, U>(a: seq<T>, b: seq<T>, keep: T -> bool, f: T -> U)
    ensures Pick(a + b, keep, f) == Pick(a, keep, f) + Pick(b, keep, f)
    decreases b
  {
    if b == [] {
      assert a + b == a;
    } else {
      var n := |b| - 1;
      assert (a + b)[..|a + b| - 1] == a + b[..n];
      PickConcat(a, b[..n], keep, f);
      assert (a + b)[|a + b| - 1] == b[n];
    }
  }

  lemma {:induction false} PickMember<T, U>(s: seq<T>, keep: T -> bool, f: T -> U, u: U)
    ensures u in Pick(s, keep, f) <==> exists x :: x in s && keep(x) && f(x) == u
  {
    if s != [] {
      var n := |s| - 1;
      PickMember(s[..n], keep, f, u);
      assert s == s[..n] + [s[n]];
    }
  }

  lemma {:induction false} PickOne<T, U>(x: T, keep: T -> bool, f: T -> U)
    ensures Pick([x], keep, f) == if keep(x) then [f(x)] else []
  {
  }

  lemma PickLast<T>(s: seq<T>, x: T, keep: T -> bool)
    ensures multiset(Pick(s + [x], keep, Same)) == multiset(Pick(s, keep, Same)) + if keep(x) then multiset{x} else multiset{}
  {
    PickConcat(s, [x], keep, Same);
    PickOne(x, keep, Same);
  }

  /** Two complementary selections split a sequence. */
  lemma {:induction false} PickSplits<T(!new)>(s: seq<T>, keep: T -> bool, rest: T -> bool)
    requires forall x :: rest(x) == !keep(x)
    ensures multiset(Pick(s, keep, Same)) + multiset(Pick(s, rest, Same)) == multiset(s)
    decreases s
  {
    if s != [] {
      var t, x := s[..|s| - 1], s[|s| - 1];
      assert s == t + [x];
      PickSplits(t, keep, rest);
      PickLast(t, x, keep);
      PickLast(t, x, rest);
    }
  }

  /** Taking one element out of the input takes its image out of what is picked. */
  lemma {:induction false} PickWithout<T, U>(b: seq<T>, i: nat, keep: T -> bool, f: T -> U)
    requires i < |b|
    ensures multiset(b[..i] + b[i + 1..]) == multiset(b) - multiset{b[i]}
    ensures multiset(Pick(b, keep, f)) ==
            multiset(Pick(b[..i] + b[i + 1..], keep, f)) + multiset(Pick([b[i]], keep, f))
  {
    var l, x, r := b[..i], b[i], b[i + 1..];
    assert b == l + ([x] + r);
    PickConcat(l, [x] + r, keep, f);
    PickConcat([x], r, keep, f);
    PickConcat(l, r, keep, f);
  }

  /** A permutation of the input permutes what is picked. */
  lemma {:induction false} PickPermutes<T, U>(a: seq<T>, b: seq<T>, keep: T -> bool, f: T -> U)
    requires multiset(a) == multiset(b)
    ensures multiset(Pick(a, keep, f)) == multiset(Pick(b, keep, f))
    decreases |a|
  {
    SameLength(a, b);
    if a == [] {
      assert b == [];
    } else {
      var i := IndexIn(b, a, 0);
      PickStep(a, 0, b, i, keep, f);
      PickPermutes(a[..0] + a[1..], b[..i] + b[i + 1..], keep, f);
    }
  }

  lemma SameLength<T>(a: seq<T>, b: seq<T>)
    requires multiset(a) == multiset(b)
    ensures |a| == |b|
  {
    assert |multiset(a)| == |a| && |multiset(b)| == |b|;
  }

  lemma PickStep<T, U>(a: seq<T>, j: nat, b: seq<T>, i: nat, keep: T -> bool, f: T -> U)
    requires multiset(a) == multiset(b) && j < |a| && i < |b| && a[j] == b[i]
    ensures var a', b' := a[..j] + a[j + 1..], b[..i] + b[i + 1..];
            && multiset(a') == multiset(b') && |a'| == |a| - 1
            && (multiset(Pick(a', keep, f)) == multiset(Pick(b', keep, f)) ==>
                  multiset(Pick(a, keep, f)) == multiset(Pick(b, keep, f)))
  {
    PickWithout(a, j, keep, f);
    PickWithout(b, i, keep, f);
  }

  lemma IndexIn<T>(b: seq<T>, a: seq<T>, j: nat) returns (i: nat)
    requires multiset(a) == multiset(b) && j < |a|
    ensures i < |b| && b[i] == a[j]
  {
    assert a[j] in multiset(a);
    assert a[j] in multiset(b);
    i :| 0 <= i < |b| && b[i] == a[j];
  }

  // ---- Lists without repetition -------------------------------------------------------------

  ghost predicate NoRepeat<T>(s: seq<T>) {
    forall i, j :: 0 <= i < j < |s| ==> s[i] != s[j]
  }

  lemma LastOnce<T>(s: seq<T>, d: T)
    requires s != [] && NoRepeat(s)
    ensures var n := |s| - 1; NoRepeat(s[..n]) && (d in s <==> d in s[..n] || d == s[n]) && !(d in s[..n] && d == s[n])
  {
  }

  lemma PermutedNoRepeat<T>(a: seq<T>, b: seq<T>)
    requires NoRepeat(a) && multiset(a) == multiset(b)
    ensures NoRepeat(b)
  {
    NoRepeatCounts(a);
    CountsNoRepeat(b);
  }

  lemma {:induction false} NoRepeatCounts<T>(a: seq<T>)
    requires NoRepeat(a)
    ensures forall x :: multiset(a)[x] <= 1
    decreases a
  {
    if a != [] {
      var n := |a| - 1;
      NoRepeatCounts(a[..n]);
      assert a == a[..n] + [a[n]];
      assert a[n] !in multiset(a[..n]);
    }
  }

  lemma {:induction false} CountsNoRepeat<T>(b: seq<T>)
    requires forall x :: multiset(b)[x] <= 1
    ensures NoRepeat(b)
    decreases b
  {
    if b != [] {
      var n := |b| - 1;
      assert b == b[..n] + [b[n]];
      forall x ensures multiset(b[..n])[x] <= 1 {
        assert multiset(b)[x] <= 1;
      }
      CountsNoRepeat(b[..n]);
      assert multiset(b)[b[n]] == multiset(b[..n])[b[n]] + 1;
    }
  }

  lemma SameSetSameBag<T>(a: seq<T>, b: seq<T>)
    requires NoRepeat(a) && NoRepeat(b) && forall x :: x in a <==> x in b
    ensures multiset(a) == multiset(b)
  {
    NoRepeatCounts(a);
    NoRepeatCounts(b);
    forall x ensures multiset(a)[x] == multiset(b)[x] {
      assert x in multiset(a) <==> x in a;
      assert x in multiset(b) <==> x in b;
    }
  }

  function Lookup<T>(m: map<string, T>, none: T): string -> T { (k: string) => if k in m then m[k] else none }

  lemma ListedIsPick<T>(m: map<string, T>, ks: seq<string>, s: seq<T>, none: T)
    requires ListedBy(m, ks, s)
    ensures Pick(ks, Any, Lookup(m, none)) == s
  {
    PickAllIs(ks, Lookup(m, none), s);
  }

  lemma KeysPermute<T>(m: map<string, T>, ka: seq<string>, a: seq<T>, kb: seq<string>, b: seq<T>)
    requires ListedBy(m, ka, a) && ListedBy(m, kb, b)
    ensures multiset(ka) == multiset(kb)
  {
    forall k ensures k in ka <==> k in kb {
      if k in ka {
        var i :| 0 <= i < |ka| && ka[i] == k;
      }
      if k in kb {
        var i :| 0 <= i < |kb| && kb[i] == k;
      }
    }
    SameSetSameBag(ka, kb);
  }

  /** Two orders of ranging over one map differ by a permutation. */
  lemma ListingsPermute<T>(m: map<string, T>, a: seq<T>, b: seq<T>)
    requires IsListing(m, a) && IsListing(m, b)
    ensures multiset(a) == multiset(b)
  {
    var ka :| ListedBy(m, ka, a);
    var kb :| ListedBy(m, kb, b);
    KeysPermute(m, ka, a, kb, b);
    SameLength(ka, kb);
    if a != [] {
      ListedIsPick(m, ka, a, a[0]);
      ListedIsPick(m, kb, b, a[0]);
      PickPermutes(ka, kb, Any, Lookup(m, a[0]));
    }
  }

  lemma {:induction false} PickAllIs<T, U>(s: seq<T>, f: T -> U, r: seq<U>)
    requires |r| == |s| && forall i :: 0 <= i < |s| ==> r[i] == f(s[i])
    ensures Pick(s, Any, f) == r
    decreases s
  {
    if s != [] {
      var n := |s| - 1;
      PickAllIs(s[..n], f, r[..n]);
    }
  }
}
