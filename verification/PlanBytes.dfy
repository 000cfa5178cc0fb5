/** What can start where in a stream of length-prefixed names, told from the bytes alone. */
module PlanBytes {
  import opened Wrappers
  import opened Machine
  import opened Ordering
  import opened Digests

  const TEBIBYTE: int := 0x100_0000_0000
  const SLASH: byte := 0x2F

  // -------------------------------------------------------------------------
  // Lists of items, each delimiting itself
  // -------------------------------------------------------------------------

  function Join(items: seq<seq<byte>>): seq<byte> {
    if items == [] then [] else items[0] + Join(items[1..])
  }

  lemma {:induction false} JoinConcat(a: seq<seq<byte>>, b: seq<seq<byte>>)
    ensures Join(a + b) == Join(a) + Join(b)
  {
    if a == [] {
      assert a + b == b;
    } else {
      assert (a + b)[1..] == a[1..] + b;
      JoinConcat(a[1..], b);
    }
  }

  lemma JoinOne(items: seq<seq<byte>>, x: seq<byte>)
    ensures Join(items + [x]) == Join(items) + x
  {
    JoinConcat(items, [x]);
    assert [x][1..] == [];
  }

  ghost predicate PrefixFree(xs: seq<seq<byte>>, ys: seq<seq<byte>>) {
    forall x, y :: x in xs && y in ys && (x <= y || y <= x) ==> x == y
  }

  /** What follows a list is not a longer rest of it. */
  ghost predicate Apart(xs: seq<seq<byte>>, x: seq<byte>, y: seq<byte>) {
    forall i :: 0 <= i < |xs| ==> Join(xs[i..]) + x != y
  }

  lemma ApartTail(xs: seq<seq<byte>>, x: seq<byte>, y: seq<byte>)
    requires xs != [] && Apart(xs, x, y)
    ensures Apart(xs[1..], x, y)
  {
    forall i | 0 <= i < |xs[1..]| ensures Join(xs[1..][i..]) + x != y {
      assert xs[1..][i..] == xs[i + 1..];
    }
  }

  /** Two lists with no counts, and what follows them, read back from their bytes. */
  lemma {:induction false} ListsReadBack(xs: seq<seq<byte>>, ys: seq<seq<byte>>, x: seq<byte>, y: seq<byte>)
    requires PrefixFree(xs, ys) && Apart(xs, x, y) && Apart(ys, y, x)
    requires Join(xs) + x == Join(ys) + y
    ensures xs == ys && x == y
  {
    if xs == [] || ys == [] {
      assert xs[0..] == xs && ys[0..] == ys;
      assert Join(xs) + x == x || Join(ys) + y == y;
    } else {
      var p, q := Join(xs[1..]), Join(ys[1..]);
      ConcatAssociative(xs[0], p, x);
      ConcatAssociative(ys[0], q, y);
      Comparable(xs[0], ys[0], p + x, q + y);
      assert xs[0] in xs && ys[0] in ys;
      SplitEqual(xs[0], ys[0], p + x, q + y);
      ApartTail(xs, x, y);
      ApartTail(ys, y, x);
      assert forall item :: (item in xs[1..] ==> item in xs) && (item in ys[1..] ==> item in ys);
      ListsReadBack(xs[1..], ys[1..], x, y);
      assert xs == [xs[0]] + xs[1..] && ys == [ys[0]] + ys[1..];
    }
  }

  lemma Comparable(x: seq<byte>, y: seq<byte>, u: seq<byte>, v: seq<byte>)
    requires x + u == y + v
    ensures x <= y || y <= x
  {
    assert forall i :: 0 <= i < |x| ==> x[i] == (x + u)[i];
    assert forall i :: 0 <= i < |y| ==> y[i] == (y + v)[i];
  }

  lemma Resumes(x: seq<byte>, y: seq<byte>) returns (u: seq<byte>)
    requires x <= y
    ensures x + u == y
  {
    u := y[|x|..];
  }

  /** It is enough that no item starts what follows. */
  lemma ApartByItem(xs: seq<seq<byte>>, x: seq<byte>, y: seq<byte>)
    requires forall item :: item in xs ==> !(item <= y)
    ensures Apart(xs, x, y)
  {
    forall i | 0 <= i < |xs| ensures Join(xs[i..]) + x != y {
      assert xs[i] in xs;
      var rest := Join(xs[i..][1..]) + x;
      ConcatAssociative(xs[i], Join(xs[i..][1..]), x);
      assert xs[i] <= xs[i] + rest;
    }
  }

  // -------------------------------------------------------------------------
  // Length words
  // -------------------------------------------------------------------------

  lemma {:induction false} HighBytesAreZero(v: nat, m: nat, n: nat)
    requires v < Pow256(m)
    ensures forall j :: m <= j < n ==> LeBytes(v, n)[j] == 0
  {
    if n != 0 {
      var less := if m == 0 then 0 else m - 1;
      HighBytesAreZero(v / 256, less, n - 1);
      forall j | m <= j < n ensures LeBytes(v, n)[j] == 0 {
        if j > 0 {
          assert LeBytes(v, n)[j] == LeBytes(v / 256, n - 1)[j - 1];
        }
      }
    }
  }

  /** A text under a tebibyte: its length word ends in three zeros, then it follows. */
  lemma TextAt(t: seq<byte>, z: seq<byte>)
    requires TextCode(t) <= z && |t| < TEBIBYTE
    ensures |z| >= 8 + |t| && z[0] == |t| % 256 && z[5] == z[6] == z[7] == 0
    ensures forall j :: 0 <= j < |t| ==> z[8 + j] == t[j]
  {
    assert Pow256(5) == TEBIBYTE;
    HighBytesAreZero(|t|, 5, 8);
    var w := WordCode(|t|);
    assert forall j :: 0 <= j < 8 ==> z[j] == TextCode(t)[j] == w[j];
    assert forall j :: 0 <= j < |t| ==> z[8 + j] == TextCode(t)[8 + j] == t[j];
  }

  /** One place starts with one text. */
  lemma OneText(a: seq<byte>, b: seq<byte>, z: seq<byte>)
    requires TextCode(a) <= z && TextCode(b) <= z && |a| < TEBIBYTE && |b| < TEBIBYTE
    ensures a == b
  {
    var u := Resumes(TextCode(a), z);
    var v := Resumes(TextCode(b), z);
    TextPrefixFree(a, b, u, v);
  }

  lemma DifferentTexts(a: seq<byte>, b: seq<byte>, z: seq<byte>)
    requires a != b && TextCode(b) <= z && |a| < TEBIBYTE && |b| < TEBIBYTE
    ensures !(TextCode(a) <= z)
  {
    if TextCode(a) <= z {
      OneText(a, b, z);
    }
  }

  // -------------------------------------------------------------------------
  // What names look like
  // -------------------------------------------------------------------------

  ghost predicate NonZero(s: seq<byte>) {
    forall i :: 0 <= i < |s| ==> s[i] != 0
  }

  ghost predicate NameBytes(s: seq<byte>) {
    s != [] && |s| < TEBIBYTE && NonZero(s)
  }

  ghost predicate PathBytes(s: seq<byte>) {
    NameBytes(s) && s[0] == SLASH
  }

  ghost predicate HostBytes(s: seq<byte>) {
    s != [] && |s| < TEBIBYTE && forall i :: 0 <= i < |s| ==> s[i] > 0x20 && s[i] != SLASH
  }

  ghost predicate KeyBytes(s: seq<byte>) {
    3 <= |s| < 0x1_0000 && NonZero(s) && SLASH in s && s[0] != SLASH
  }

  lemma KeyAt(k: seq<byte>, z: seq<byte>)
    requires KeyBytes(k) && TextCode(k) <= z
    ensures |z| >= 8 + |k| && z[0] == |k| % 256
    ensures z[2] == z[3] == z[4] == z[5] == z[6] == z[7] == 0
    ensures forall j :: 0 <= j < |k| ==> z[8 + j] == k[j]
  {
    TextAt(k, z);
    assert Pow256(2) == 0x1_0000;
    HighBytesAreZero(|k|, 2, 8);
    assert forall j :: 0 <= j < 8 ==> z[j] == TextCode(k)[j] == WordCode(|k|)[j];
  }

  // -------------------------------------------------------------------------
  // What can start where
  // -------------------------------------------------------------------------

  /** Nothing, or a promotion target. */
  ghost predicate TargetTail(z: seq<byte>) {
    z == [] || exists k :: KeyBytes(k) && TextCode(k) <= z
  }

  /** The same, possibly behind the default certificate's handle. */
  ghost predicate CertTail(z: seq<byte>) {
    TargetTail(z) || (|z| >= 8 && TargetTail(z[8..]))
  }

  /** The same, possibly behind certificate hosts. */
  ghost predicate SniTail(z: seq<byte>) {
    CertTail(z) || exists h :: HostBytes(h) && TextCode(h) <= z
  }

  /** Too short to hold a name, or with a zero near its front. */
  ghost predicate EarlyZero(z: seq<byte>) {
    |z| <= 8 || exists j :: 0 <= j <= 13 && j < |z| && z[j] == 0
  }

  lemma TargetTailCase(z: seq<byte>) returns (k: seq<byte>)
    requires TargetTail(z) && z != []
    ensures KeyBytes(k) && TextCode(k) <= z
    ensures |z| >= 11 && z[2] == z[5] == z[7] == 0 && z[8] == k[0]
  {
    k :| KeyBytes(k) && TextCode(k) <= z;
    KeyAt(k, z);
  }

  lemma ZeroEarly(z: seq<byte>)
    requires SniTail(z)
    ensures EarlyZero(z)
  {
    if TargetTail(z) {
      if z != [] {
        var _ := TargetTailCase(z);
      }
    } else if CertTail(z) {
      if z[8..] != [] {
        var _ := TargetTailCase(z[8..]);
        assert z[13] == z[8..][5];
      }
    } else {
      var h :| HostBytes(h) && TextCode(h) <= z;
      TextAt(h, z);
    }
  }

  // -------------------------------------------------------------------------
  // Certificate hosts, the default certificate, targets
  // -------------------------------------------------------------------------

  /** A handle followed by a target is no host: the target's name has no zero where the next item must. */
  lemma HostIsNoHandle(h: seq<byte>, id: seq<byte>, rest: seq<byte>, v: seq<byte>)
    requires HostBytes(h) && |id| == 8 && EarlyZero(rest) && TargetTail(v)
    ensures h + id + rest != v
  {
    if v != [] {
      var w := h + id + rest;
      var k := TargetTailCase(v);
      KeyAt(k, v);
      assert w[0] == h[0] && (|h| >= 3 ==> w[2] == h[2]);
      if |k| > 0x20 && |h| < 3 && |rest| > 8 {
        var j :| 0 <= j <= 13 && j < |rest| && rest[j] == 0;
        assert w[8 + (|h| + j)] == rest[j];
        assert v[8 + (|h| + j)] == k[|h| + j];
      }
    }
  }

  lemma HostIsNoKey(h: seq<byte>, more: seq<byte>, y: seq<byte>)
    requires HostBytes(h) && TargetTail(y)
    ensures TextCode(h) + more != y
  {
    assert TextCode(h) <= TextCode(h) + more;
    if y != [] {
      var k := TargetTailCase(y);
      DifferentTexts(h, k, y);
    }
  }

  lemma HostIsNoTarget(h: seq<byte>, id: seq<byte>, rest: seq<byte>, y: seq<byte>)
    requires HostBytes(h) && |id| == 8 && EarlyZero(rest) && CertTail(y)
    ensures TextCode(h) + id + rest != y
  {
    var x := TextCode(h) + id + rest;
    if TargetTail(y) {
      HostIsNoKey(h, id + rest, y);
      ConcatAssociative(TextCode(h), id, rest);
    } else {
      HostIsNoHandle(h, id, rest, y[8..]);
      assert x[8..] == h + id + rest;
    }
  }

  lemma HandleIsNoTarget(w: seq<byte>, v: seq<byte>, t: seq<byte>)
    requires |w| == 8 && TargetTail(v) && TargetTail(t)
    ensures w + v != t
  {
    if t != [] {
      var k := TargetTailCase(t);
      KeyAt(k, t);
      assert t[8 + 2] == k[2];
      if v != [] {
        var _ := TargetTailCase(v);
        assert (w + v)[10] == v[2];
      }
    }
  }

  // -------------------------------------------------------------------------
  // Routes and the default backend
  // -------------------------------------------------------------------------

  /** Behind a path of one or two bytes the backend's length word puts a zero where a target's name starts. */
  lemma ShortPath(path: seq<byte>, rank: byte, backend: seq<byte>, rest: seq<byte>)
    requires 1 <= |path| <= 2 && |backend| < TEBIBYTE
    ensures (path + ([rank] + (TextCode(backend) + rest)))[8] == 0
  {
    var text := TextCode(backend) + rest;
    TextAt(backend, text);
    assert ([rank] + text)[8 - |path|] == text[7 - |path|];
  }

  /** A path followed by its backend is no handle followed by a target. */
  lemma PathIsNoHandle(path: seq<byte>, rank: byte, backend: seq<byte>, rest: seq<byte>, v: seq<byte>)
    requires PathBytes(path) && |backend| < TEBIBYTE && TargetTail(v)
    ensures path + ([rank] + (TextCode(backend) + rest)) != v
  {
    if v != [] {
      var w := path + ([rank] + (TextCode(backend) + rest));
      var k := TargetTailCase(v);
      KeyAt(k, v);
      if |path| >= 3 {
        assert w[2] == path[2];
      } else {
        ShortPath(path, rank, backend, rest);
      }
    }
  }

  /** A place's path and type, its backend, and the rest. */
  function Spelled(path: seq<byte>, rank: byte, backend: seq<byte>, rest: seq<byte>): seq<byte> {
    TextCode(path) + ([rank] + (TextCode(backend) + rest))
  }

  lemma PathIsNoTail(path: seq<byte>, rank: byte, backend: seq<byte>, rest: seq<byte>, z: seq<byte>)
    requires PathBytes(path) && |backend| < TEBIBYTE && SniTail(z)
    ensures Spelled(path, rank, backend, rest) != z
  {
    var tail := [rank] + (TextCode(backend) + rest);
    var x := TextCode(path) + tail;
    assert TextCode(path) <= x;
    if TargetTail(z) {
      if z != [] {
        var k := TargetTailCase(z);
        DifferentTexts(path, k, z);
      }
    } else if CertTail(z) {
      PathIsNoHandle(path, rank, backend, rest, z[8..]);
      assert x[8..] == path + tail;
    } else {
      var h :| HostBytes(h) && TextCode(h) <= z;
      DifferentTexts(path, h, z);
    }
  }

  ghost predicate PathTail(z: seq<byte>) {
    exists path :: PathBytes(path) && TextCode(path) <= z
  }

  /** What follows a host or the default backend has a zero where a name has none. */
  lemma ZeroWhereNamed(t: seq<byte>)
    requires SniTail(t) || PathTail(t)
    ensures |t| <= 8 || t[7] == 0 || (|t| >= 16 && t[15] == 0)
  {
    if PathTail(t) {
      var path :| PathBytes(path) && TextCode(path) <= t;
      TextAt(path, t);
    } else if TargetTail(t) {
      if t != [] {
        var _ := TargetTailCase(t);
      }
    } else if CertTail(t) {
      if t[8..] != [] {
        var _ := TargetTailCase(t[8..]);
        assert t[15] == t[8..][7];
      }
    } else {
      var h :| HostBytes(h) && TextCode(h) <= t;
      TextAt(h, t);
    }
  }

  lemma NameAt(name: seq<byte>, z: seq<byte>)
    requires NameBytes(name)
    ensures TextCode(name) <= z ==> |z| >= 9 && z[8] != 0 && (z[0] == 0 ==> |z| >= 264 && z[16] != 0)
  {
    if TextCode(name) <= z {
      TextAt(name, z);
      assert z[8 + 0] == name[0];
      if z[0] == 0 {
        assert |name| >= 256;
        assert z[8 + 8] == name[8];
      }
    }
  }

  lemma NameIsNoText(name: seq<byte>, text: seq<byte>, t: seq<byte>)
    requires NameBytes(name) && |text| < TEBIBYTE
    ensures !(TextCode(name) <= [1] + (TextCode(text) + t))
  {
    var u := TextCode(text) + t;
    NameAt(name, [1] + u);
    TextAt(text, u);
    assert ([1] + u)[8] == u[7];
  }

  lemma NameIsNoTail(name: seq<byte>, t: seq<byte>)
    requires NameBytes(name) && (SniTail(t) || PathTail(t))
    ensures !(TextCode(name) <= [0] + t)
  {
    NameAt(name, [0] + t);
    ZeroWhereNamed(t);
    assert |t| > 7 ==> ([0] + t)[8] == t[7];
    assert |t| > 15 ==> ([0] + t)[16] == t[15];
  }

  /** A backend's name is neither a route's host nor the default backend. */
  lemma NameIsNoChoice(name: seq<byte>, o: Option<seq<byte>>, t: seq<byte>)
    requires NameBytes(name) && (o.Some? ==> |o.value| < TEBIBYTE)
    requires SniTail(t) || PathTail(t)
    ensures !(TextCode(name) <= OptTextCode(o) + t)
  {
    match o
    case Some(text) =>
      NameIsNoText(name, text, t);
      ConcatAssociative([1], TextCode(text), t);
    case None =>
      NameIsNoTail(name, t);
  }
}
