/**
 * Orders and sorting.
 *
 * The compiler walks hash maps and arrival-ordered lists and then sorts, and its
 * promise of determinism rests on one fact: sorting leaves a single possible
 * result. `SortedUnique` is that fact; the rest is the orders it is used at.
 */
module Ordering {
  import opened Wrappers

  /** Any two elements are comparable, and comparisons chain. */
  ghost predicate TotalPreorder<T(!new)>(le: (T, T) -> bool) {
    && (forall x, y :: le(x, y) || le(y, x))
    && (forall x, y, z :: le(x, y) && le(y, z) ==> le(x, z))
  }

  ghost predicate SortedBy<T>(le: (T, T) -> bool, s: seq<T>) {
    forall i, j :: 0 <= i < j < |s| ==> le(s[i], s[j])
  }

  /** No two different elements of `s` tie. */
  ghost predicate NoTies<T>(le: (T, T) -> bool, s: seq<T>) {
    forall x, y :: x in s && y in s && le(x, y) && le(y, x) ==> x == y
  }

  ghost predicate Distinct<T>(s: seq<T>) {
    forall i, j :: 0 <= i < j < |s| ==> s[i] != s[j]
  }

  lemma ConcatAssociative<T>(a: seq<T>, b: seq<T>, c: seq<T>)
    ensures a + b + c == a + (b + c)
  {
  }

  /** Puts `x` ahead of the first element it does not exceed, so ties keep their order. */
  function Insert<T>(le: (T, T) -> bool, x: T, s: seq<T>): (r: seq<T>)
    ensures multiset(r) == multiset(s) + multiset{x}
  {
    if s == [] || le(x, s[0]) then
      [x] + s
    else
      assert s == [s[0]] + s[1..];
      [s[0]] + Insert(le, x, s[1..])
  }

  /** A stable sort. */
  function SortBy<T>(le: (T, T) -> bool, s: seq<T>): (r: seq<T>)
    ensures multiset(r) == multiset(s)
    ensures |r| == |s|
  {
    if s == [] then []
    else
      assert s == [s[0]] + s[1..];
      var r := Insert(le, s[0], SortBy(le, s[1..]));
      assert |r| == |multiset(r)| && |s| == |multiset(s)|;
      r
  }

  lemma {:induction false} InsertSorted<T(!new)>(le: (T, T) -> bool, x: T, s: seq<T>)
    requires TotalPreorder(le)
    requires SortedBy(le, s)
    ensures SortedBy(le, Insert(le, x, s))
  {
    if s == [] || le(x, s[0]) {
    } else {
      InsertSorted(le, x, s[1..]);
      var t := Insert(le, x, s[1..]);
      forall y | y in t ensures le(s[0], y) {
        assert y in multiset(t);
        assert y in multiset(s[1..]) || y == x;
      }
    }
  }

  lemma {:induction false} SortBySorted<T(!new)>(le: (T, T) -> bool, s: seq<T>)
    requires TotalPreorder(le)
    ensures SortedBy(le, SortBy(le, s))
  {
    if s != [] {
      SortBySorted(le, s[1..]);
      InsertSorted(le, s[0], SortBy(le, s[1..]));
    }
  }

  lemma SameMembers<T>(a: seq<T>, b: seq<T>)
    requires multiset(a) == multiset(b)
    ensures |a| == |b|
    ensures forall x :: x in a <==> x in b
  {
    assert |a| == |multiset(a)| && |b| == |multiset(b)|;
    forall x ensures x in a <==> x in b {
      assert x in a <==> x in multiset(a);
      assert x in b <==> x in multiset(b);
    }
  }

  lemma SortedHeadsAgree<T>(le: (T, T) -> bool, a: seq<T>, b: seq<T>)
    requires SortedBy(le, a) && SortedBy(le, b)
    requires a != [] && multiset(a) == multiset(b)
    requires NoTies(le, a)
    ensures b != [] && a[0] == b[0]
  {
    SameMembers(a, b);
    assert a[0] in b && b[0] in a;
    var i :| 0 <= i < |b| && b[i] == a[0];
    var j :| 0 <= j < |a| && a[j] == b[0];
    assert i == 0 || le(b[0], b[i]);
    assert j == 0 || le(a[0], a[j]);
  }

  lemma TailMultiset<T>(s: seq<T>)
    requires s != []
    ensures multiset(s[1..]) == multiset(s) - multiset{s[0]}
  {
    assert s == [s[0]] + s[1..];
  }

  lemma SortedTails<T>(le: (T, T) -> bool, a: seq<T>, b: seq<T>)
    requires SortedBy(le, a) && SortedBy(le, b) && NoTies(le, a)
    requires a != [] && b != [] && a[0] == b[0] && multiset(a) == multiset(b)
    ensures SortedBy(le, a[1..]) && SortedBy(le, b[1..]) && NoTies(le, a[1..])
    ensures multiset(a[1..]) == multiset(b[1..])
  {
    TailMultiset(a);
    TailMultiset(b);
    assert forall x :: x in a[1..] ==> x in a;
  }

  lemma HeadAndTail<T>(a: seq<T>, b: seq<T>)
    requires a != [] && b != [] && a[0] == b[0] && a[1..] == b[1..]
    ensures a == b
  {
    assert a == [a[0]] + a[1..] && b == [b[0]] + b[1..];
  }

  /** Two sorted arrangements of the same elements are the same list when nothing ties. */
  lemma {:induction false} SortedUnique<T>(le: (T, T) -> bool, a: seq<T>, b: seq<T>)
    requires SortedBy(le, a) && SortedBy(le, b)
    requires multiset(a) == multiset(b)
    requires NoTies(le, a)
    ensures a == b
    decreases |a|
  {
    SameMembers(a, b);
    if |a| != 0 {
      SortedHeadsAgree(le, a, b);
      SortedTails(le, a, b);
      SortedUnique(le, a[1..], b[1..]);
      HeadAndTail(a, b);
    }
  }

  /** Sorting forgets the order things arrived in. */
  lemma SortForgetsOrder<T(!new)>(le: (T, T) -> bool, a: seq<T>, b: seq<T>)
    requires TotalPreorder(le)
    requires multiset(a) == multiset(b)
    requires NoTies(le, a)
    ensures SortBy(le, a) == SortBy(le, b)
  {
    SortBySorted(le, a);
    SortBySorted(le, b);
    SameMembers(a, SortBy(le, a));
    SortedUnique(le, SortBy(le, a), SortBy(le, b));
  }

  /** The head of one arrangement, found in the other, and what removing it leaves. */
  lemma Located<T>(a: seq<T>, b: seq<T>) returns (i: nat)
    requires a != [] && multiset(a) == multiset(b)
    ensures i < |b| && b[i] == a[0]
    ensures multiset(a[1..]) == multiset(b[..i] + b[i + 1..])
  {
    SameMembers(a, b);
    assert a[0] in b;
    i :| 0 <= i < |b| && b[i] == a[0];
    TailMultiset(a);
    WithoutMultiset(b, i);
  }

  lemma WithoutMultiset<T>(s: seq<T>, i: nat)
    requires i < |s|
    ensures multiset(s[..i] + s[i + 1..]) == multiset(s) - multiset{s[i]}
  {
    assert s == s[..i] + ([s[i]] + s[i + 1..]);
  }

  lemma {:induction false} DistinctSameSet<T>(a: seq<T>, b: seq<T>)
    requires Distinct(a) && Distinct(b)
    requires forall x :: x in a <==> x in b
    ensures multiset(a) == multiset(b)
  {
    DistinctCounts(a);
    DistinctCounts(b);
    forall x ensures multiset(a)[x] == multiset(b)[x] {
      assert x in a <==> x in multiset(a);
      assert x in b <==> x in multiset(b);
    }
  }

  lemma {:induction false} DistinctCounts<T>(s: seq<T>)
    requires Distinct(s)
    ensures forall x :: multiset(s)[x] == if x in s then 1 else 0
  {
    if s != [] {
      DistinctCounts(s[1..]);
      assert s == [s[0]] + s[1..];
    }
  }

  lemma DistinctPermuted<T>(a: seq<T>, b: seq<T>)
    requires Distinct(a) && multiset(a) == multiset(b)
    ensures Distinct(b)
  {
    SameMembers(a, b);
    DistinctCounts(a);
    forall i, j | 0 <= i < j < |b| ensures b[i] != b[j] {
      if b[i] == b[j] {
        CountedTwice(b, i, j);
      }
    }
  }

  lemma CountedTwice<T>(s: seq<T>, i: nat, j: nat)
    requires i < j < |s| && s[i] == s[j]
    ensures multiset(s)[s[i]] >= 2
  {
    assert s == s[..j] + s[j..];
    assert s[i] == s[..j][i] && s[i] == s[j..][0];
    assert s[i] in multiset(s[..j]) && s[i] in multiset(s[j..]);
  }

  // -------------------------------------------------------------------------
  // Hash maps
  // -------------------------------------------------------------------------

  /** The elements of a set in some order nobody may rely on. */
  ghost function Enumerate<T(!new)>(s: set<T>): (r: seq<T>)
    ensures Distinct(r) && |r| == |s|
    ensures forall x :: x in r <==> x in s
  {
    if s == {} then []
    else
      var x :| x in s;
      [x] + Enumerate(s - {x})
  }

  /** Walks a hash map's keys: every one once, in whatever order it likes. */
  method Walk<T(==)>(keys: set<T>) returns (order: seq<T>)
    ensures Distinct(order)
    ensures forall x :: x in order <==> x in keys
  {
    order := [];
    var left := keys;
    while left != {}
      invariant left <= keys
      invariant Distinct(order)
      invariant forall x :: x in order <==> x in keys && x !in left
      decreases left
    {
      var x :| x in left;
      left := left - {x};
      order := order + [x];
    }
  }

  /** A set, sorted. */
  ghost function SortedSet<T(!new)>(le: (T, T) -> bool, s: set<T>): (r: seq<T>)
    ensures |r| == |s|
    ensures forall x :: x in r <==> x in s
    ensures Distinct(r)
  {
    var e := Enumerate(s);
    SameMembers(e, SortBy(le, e));
    DistinctPermuted(e, SortBy(le, e));
    SortBy(le, e)
  }

  /** However a hash map was walked, the sorted walk is the same list. */
  lemma SortedWalk<T(!new)>(le: (T, T) -> bool, order: seq<T>, s: set<T>)
    requires TotalPreorder(le)
    requires forall x, y :: le(x, y) && le(y, x) ==> x == y
    requires Distinct(order) && forall x :: x in order <==> x in s
    ensures SortBy(le, order) == SortedSet(le, s)
    ensures SortedBy(le, SortedSet(le, s))
  {
    DistinctSameSet(order, Enumerate(s));
    SortForgetsOrder(le, order, Enumerate(s));
    SortBySorted(le, Enumerate(s));
  }

  function MapSeq<A, B>(f: A -> B, s: seq<A>): (r: seq<B>)
    ensures |r| == |s|
    ensures forall i :: 0 <= i < |s| ==> r[i] == f(s[i])
  {
    seq(|s|, i requires 0 <= i < |s| => f(s[i]))
  }

  lemma MapWithout<A, B>(f: A -> B, s: seq<A>, i: nat)
    requires i < |s|
    ensures multiset(MapSeq(f, s)) == multiset(MapSeq(f, s[..i] + s[i + 1..])) + multiset{f(s[i])}
  {
    var m := MapSeq(f, s);
    assert m[..i] + m[i + 1..] == MapSeq(f, s[..i] + s[i + 1..]);
    WithoutMultiset(m, i);
    assert m[i] in m;
  }

  lemma MapAgrees<A, B>(f: A -> B, a: seq<A>, b: seq<A>, i: nat)
    requires a != [] && i < |b| && b[i] == a[0]
    requires multiset(MapSeq(f, a[1..])) == multiset(MapSeq(f, b[..i] + b[i + 1..]))
    ensures multiset(MapSeq(f, a)) == multiset(MapSeq(f, b))
  {
    WithoutFirst(a);
    MapWithout(f, a, 0);
    MapWithout(f, b, i);
  }

  lemma WithoutFirst<A>(a: seq<A>)
    requires a != []
    ensures a[..0] + a[0 + 1..] == a[1..]
  {
  }

  /** Mapping keeps arrangements of the same elements arrangements of the same images. */
  lemma {:induction false} MapForgetsOrder<A, B>(f: A -> B, a: seq<A>, b: seq<A>)
    requires multiset(a) == multiset(b)
    ensures multiset(MapSeq(f, a)) == multiset(MapSeq(f, b))
    decreases |a|
  {
    SameMembers(a, b);
    if |a| == 0 {
      assert a == b;
    } else {
      var i := Located(a, b);
      MapForgetsOrder(f, a[1..], b[..i] + b[i + 1..]);
      MapAgrees(f, a, b, i);
    }
  }

  /** The elements `p` keeps, in order. */
  function Keep<T(!new)>(p: T -> bool, s: seq<T>): (r: seq<T>)
    ensures forall x :: x in r <==> x in s && p(x)
  {
    if s == [] then []
    else
      var before := Keep(p, s[..|s| - 1]);
      assert forall x :: x in s <==> x in s[..|s| - 1] || x == s[|s| - 1];
      if p(s[|s| - 1]) then before + [s[|s| - 1]] else before
  }

  lemma {:induction false} KeepCounts<T(!new)>(p: T -> bool, s: seq<T>, x: T)
    ensures multiset(Keep(p, s))[x] == if p(x) then multiset(s)[x] else 0
  {
    if s != [] {
      KeepCounts(p, s[..|s| - 1], x);
      assert s == s[..|s| - 1] + [s[|s| - 1]];
    }
  }

  lemma KeepForgetsOrder<T(!new)>(p: T -> bool, a: seq<T>, b: seq<T>)
    requires multiset(a) == multiset(b)
    ensures multiset(Keep(p, a)) == multiset(Keep(p, b))
  {
    forall x ensures multiset(Keep(p, a))[x] == multiset(Keep(p, b))[x] {
      KeepCounts(p, a, x);
      KeepCounts(p, b, x);
    }
  }

  lemma {:induction false} KeepConcat<T(!new)>(p: T -> bool, a: seq<T>, b: seq<T>)
    ensures Keep(p, a + b) == Keep(p, a) + Keep(p, b)
  {
    if b == [] {
      assert a + b == a;
    } else {
      KeepConcat(p, a, b[..|b| - 1]);
      assert (a + b)[..|a + b| - 1] == a + b[..|b| - 1];
    }
  }

  /** A filter that cannot see what `f` changes commutes with it. */
  lemma {:induction false} KeepMap<T(!new)>(p: T -> bool, f: T -> T, s: seq<T>)
    requires forall x :: p(f(x)) == p(x)
    ensures Keep(p, MapSeq(f, s)) == MapSeq(f, Keep(p, s))
  {
    if s != [] {
      var init, last := s[..|s| - 1], s[|s| - 1];
      KeepMap(p, f, init);
      assert MapSeq(f, s)[..|s| - 1] == MapSeq(f, init);
      assert MapSeq(f, Keep(p, init) + [last]) == MapSeq(f, Keep(p, init)) + [f(last)];
    }
  }

  lemma MapCons<A, B>(f: A -> B, x: A, s: seq<A>)
    ensures MapSeq(f, [x] + s) == [f(x)] + MapSeq(f, s)
  {
  }

  lemma {:induction false} InsertMap<T(!new)>(le: (T, T) -> bool, f: T -> T, x: T, s: seq<T>)
    requires forall a, b :: le(f(a), f(b)) == le(a, b)
    ensures Insert(le, f(x), MapSeq(f, s)) == MapSeq(f, Insert(le, x, s))
  {
    if s == [] || le(x, s[0]) {
      MapCons(f, x, s);
    } else {
      InsertMap(le, f, x, s[1..]);
      assert MapSeq(f, s)[1..] == MapSeq(f, s[1..]);
      MapCons(f, s[0], Insert(le, x, s[1..]));
    }
  }

  /** So does a sort whose order cannot. */
  lemma {:induction false} SortMap<T(!new)>(le: (T, T) -> bool, f: T -> T, s: seq<T>)
    requires forall a, b :: le(f(a), f(b)) == le(a, b)
    ensures SortBy(le, MapSeq(f, s)) == MapSeq(f, SortBy(le, s))
  {
    if s == [] {
      assert MapSeq(f, s) == [];
    } else {
      SortMap(le, f, s[1..]);
      assert MapSeq(f, s)[1..] == MapSeq(f, s[1..]);
      InsertMap(le, f, s[0], SortBy(le, s[1..]));
    }
  }

  lemma {:induction false} KeepDistinct<T(!new)>(p: T -> bool, s: seq<T>)
    requires Distinct(s)
    ensures Distinct(Keep(p, s))
  {
    if s != [] {
      var init := s[..|s| - 1];
      KeepDistinct(p, init);
      assert s[|s| - 1] !in init;
    }
  }

  lemma {:induction false} KeepSorted<T(!new)>(le: (T, T) -> bool, p: T -> bool, s: seq<T>)
    requires SortedBy(le, s) && Distinct(s)
    ensures SortedBy(le, Keep(p, s)) && Distinct(Keep(p, s))
  {
    if s != [] {
      var init, last := s[..|s| - 1], s[|s| - 1];
      KeepSorted(le, p, init);
      forall x | x in Keep(p, init) ensures le(x, last) && x != last {
        var i :| 0 <= i < |init| && init[i] == x;
        assert s[i] == x;
      }
    }
  }

  lemma DistinctConcat<T>(a: seq<T>, b: seq<T>)
    requires Distinct(a) && Distinct(b) && forall x :: x in a ==> x !in b
    ensures Distinct(a + b)
  {
    forall i, j | 0 <= i < j < |a + b| ensures (a + b)[i] != (a + b)[j] {
      if i < |a| <= j {
        assert (a + b)[i] in a && (a + b)[j] in b;
      }
    }
  }

  lemma NoMembers<T>(s: seq<T>)
    requires forall x :: x !in s
    ensures s == []
  {
    assert forall x :: x in multiset(s) ==> x in s;
    assert multiset(s) == multiset{};
    assert |s| == |multiset(s)|;
  }

  /** `Vec::dedup`: drops each element equal to the one before it. */
  function Dedup<T(==,!new)>(s: seq<T>): (r: seq<T>)
    ensures forall x :: x in r <==> x in s
    ensures s != [] ==> r != [] && r[|r| - 1] == s[|s| - 1]
  {
    if s == [] then []
    else
      var init, last := s[..|s| - 1], s[|s| - 1];
      var r := Dedup(init);
      assert forall x :: x in s <==> x in init || x == last;
      if r != [] && r[|r| - 1] == last then r else r + [last]
  }

  /** A sorted list loses all its duplicates to `dedup`, and stays sorted. */
  lemma {:induction false} DedupSorted<T(!new)>(le: (T, T) -> bool, s: seq<T>)
    requires SortedBy(le, s) && NoTies(le, s)
    ensures SortedBy(le, Dedup(s)) && Distinct(Dedup(s))
  {
    if s != [] {
      var init, last := s[..|s| - 1], s[|s| - 1];
      assert forall x :: x in init ==> x in s;
      DedupSorted(le, init);
      var r := Dedup(init);
      forall i | 0 <= i < |r| ensures le(r[i], last) && (r[i] == last ==> r[|r| - 1] == last) {
        assert r[i] in init && r[|r| - 1] in init;
        var j :| 0 <= j < |init| && init[j] == r[i];
        assert le(s[j], s[|s| - 1]);
        var m :| 0 <= m < |init| && init[m] == r[|r| - 1];
        assert le(s[m], s[|s| - 1]);
        assert i < |r| - 1 ==> le(r[i], r[|r| - 1]);
      }
    }
  }

  // -------------------------------------------------------------------------
  // Strings
  // -------------------------------------------------------------------------

  /** `str`'s order: character by character, a prefix first. */
  predicate LexLe(a: string, b: string) {
    a == [] || (b != [] && (a[0] < b[0] || (a[0] == b[0] && LexLe(a[1..], b[1..]))))
  }

  lemma {:induction false} LexTotal(a: string, b: string)
    ensures LexLe(a, b) || LexLe(b, a)
  {
    if a != [] && b != [] && a[0] == b[0] {
      LexTotal(a[1..], b[1..]);
    }
  }

  lemma {:induction false} LexAntisymmetric(a: string, b: string)
    requires LexLe(a, b) && LexLe(b, a)
    ensures a == b
  {
    if a != [] && b != [] {
      LexAntisymmetric(a[1..], b[1..]);
      assert a == [a[0]] + a[1..] && b == [b[0]] + b[1..];
    }
  }

  lemma {:induction false} LexTransitive(a: string, b: string, c: string)
    requires LexLe(a, b) && LexLe(b, c)
    ensures LexLe(a, c)
  {
    if a != [] && a[0] == b[0] && b[0] == c[0] {
      LexTransitive(a[1..], b[1..], c[1..]);
    }
  }

  /** String order, gathered for use at quantified order lemmas. */
  lemma LexOrder()
    ensures TotalPreorder(LexLe)
    ensures forall a, b :: LexLe(a, b) && LexLe(b, a) ==> a == b
  {
    forall a, b ensures LexLe(a, b) || LexLe(b, a) { LexTotal(a, b); }
    forall a, b, c | LexLe(a, b) && LexLe(b, c) ensures LexLe(a, c) { LexTransitive(a, b, c); }
    forall a, b | LexLe(a, b) && LexLe(b, a) ensures a == b { LexAntisymmetric(a, b); }
  }
}
