/**
 * Bounded memories that keep the most recently used items.
 *
 * A memory is a sequence without repetition, least recently used first. `HoldsLatest` says what it has
 * to contain after a history of uses, without saying how it is maintained.
 */
module Recency {
  import opened Sequences

  ghost predicate Distinct<T>(s: seq<T>) {
    forall i, j :: 0 <= i < j < |s| ==> s[i] != s[j]
  }

  /** Position of the last occurrence of x, -1 if there is none. */
  ghost function LastUse<T>(h: seq<T>, x: T): (k: int)
    ensures -1 <= k < |h|
    ensures k >= 0 ==> h[k] == x
    ensures forall i :: k < i < |h| ==> h[i] != x
  {
    if h == [] then -1
    else if h[|h| - 1] == x then |h| - 1
    else LastUse(h[..|h| - 1], x)
  }

  ghost predicate Used<T>(h: seq<T>, x: T) {
    LastUse(h, x) >= 0
  }

  ghost predicate ByLastUse<T>(m: seq<T>, h: seq<T>) {
    forall i, j :: 0 <= i < j < |m| ==> LastUse(h, m[i]) < LastUse(h, m[j])
  }

  /** m consists of exactly the last c distinct items of the history, ordered by their last use. */
  ghost predicate HoldsLatest<T(!new)>(m: seq<T>, h: seq<T>, c: nat) {
    && |m| <= c
    && (forall i :: 0 <= i < |m| ==> Used(h, m[i]))
    && ByLastUse(m, h)
    && (forall y :: Used(h, y) && y !in m ==> Forgotten(m, h, c, y))
  }

  /** An item is missing only because the memory is full of items used later. */
  ghost predicate Forgotten<T>(m: seq<T>, h: seq<T>, c: nat, y: T) {
    |m| == c && forall i :: 0 <= i < |m| ==> LastUse(h, y) < LastUse(h, m[i])
  }

  function IndexOf<T(==)>(s: seq<T>, x: T): (k: nat)
    ensures k <= |s|
    ensures k < |s| ==> s[k] == x
    ensures forall i :: 0 <= i < k ==> s[i] != x
  {
    Find(s, y => y == x)
  }

  /** The least recently used items are dropped until at most n are left. */
  function Trimmed<T>(m: seq<T>, n: nat): (r: seq<T>) {
    if |m| > n then m[|m| - n..] else m
  }

  /** A use moves a known item to the end; a new item is appended after making room for it. */
  function Touched<T(==)>(m: seq<T>, c: nat, x: T): seq<T>
    requires c > 0
  {
    var k := IndexOf(m, x);
    if k < |m| then Without(m, k) + [x] else Trimmed(m, c - 1) + [x]
  }

  function TouchedAll<T(==)>(m: seq<T>, c: nat, h: seq<T>): seq<T>
    requires c > 0
  {
    if h == [] then m else Touched(TouchedAll(m, c, h[..|h| - 1]), c, h[|h| - 1])
  }

  lemma {:induction false} TouchedAllAppend<T>(c: nat, h: seq<T>, x: T)
    requires c > 0
    ensures TouchedAll([], c, h + [x]) == Touched(TouchedAll([], c, h), c, x)
  {
    TakeInit(h, x);
  }

  lemma {:induction false} LastUseAppend<T>(h: seq<T>, x: T, y: T)
    ensures LastUse(h + [x], y) == if y == x then |h| else LastUse(h, y)
  {
    TakeInit(h, x);
  }

  lemma {:induction false} HoldsDistinct<T(!new)>(m: seq<T>, h: seq<T>, c: nat)
    requires HoldsLatest(m, h, c)
    ensures Distinct(m)
  {
  }

  lemma {:induction false} WithoutMembers<T>(m: seq<T>, k: nat)
    requires k < |m|
    ensures forall y :: y in m && y != m[k] ==> y in Without(m, k)
    ensures forall i :: 0 <= i < |m| - 1 ==> Without(m, k)[i] == m[if i < k then i else i + 1]
  {
    forall i | 0 <= i < |m| && m[i] != m[k] ensures m[i] in Without(m, k) {
      assert Without(m, k)[if i < k then i else i - 1] == m[i];
    }
  }

  lemma {:induction false} LeftOver<T>(m: seq<T>, h: seq<T>, k: nat, t: seq<T>)
    requires k < |m| && ByLastUse(m, h) && t == Without(m, k)
    ensures ByLastUse(t, h) && m[k] !in t
  {
    WithoutMembers(m, k);
    forall i | 0 <= i < |t| ensures t[i] != m[k] {
      assert t[i] == m[if i < k then i else i + 1];
    }
  }

  lemma {:induction false} StillForgotten<T>(m: seq<T>, h: seq<T>, c: nat, k: nat, r: seq<T>, y: T)
    requires k < |m| && r == Without(m, k) + [m[k]] && Forgotten(m, h, c, y) && y != m[k]
    ensures Forgotten(r, h + [m[k]], c, y)
  {
    var (x, g) := (m[k], h + [m[k]]);
    LastUseAppend(h, x, y);
    WithoutMembers(m, k);
    forall i | 0 <= i < |r| ensures LastUse(g, y) < LastUse(g, r[i]) {
      LastUseAppend(h, x, r[i]);
    }
  }

  lemma {:induction false} TouchKnown<T(!new)>(m: seq<T>, h: seq<T>, c: nat, x: T, r: seq<T>)
    requires HoldsLatest(m, h, c) && IndexOf(m, x) < |m|
    requires r == Without(m, IndexOf(m, x)) + [x]
    ensures HoldsLatest(r, h + [x], c)
  {
    var (k, g) := (IndexOf(m, x), h + [x]);
    var t := Without(m, k);
    LeftOver(m, h, k, t);
    ByLastUseAppend(t, h, x);
    WithoutMembers(m, k);
    forall i | 0 <= i < |r| ensures Used(g, r[i]) {
      LastUseAppend(h, x, r[i]);
    }
    forall y | Used(g, y) && y !in r ensures Forgotten(r, g, c, y) {
      LastUseAppend(h, x, y);
      assert y != x && y !in m;
      StillForgotten(m, h, c, k, r, y);
    }
  }

  lemma {:induction false} ByLastUseAppend<T>(t: seq<T>, h: seq<T>, x: T)
    requires ByLastUse(t, h) && x !in t
    ensures ByLastUse(t + [x], h + [x])
  {
    var (r, g) := (t + [x], h + [x]);
    forall i, j | 0 <= i < j < |r| ensures LastUse(g, r[i]) < LastUse(g, r[j]) {
      LastUseAppend(h, x, r[i]);
      LastUseAppend(h, x, r[j]);
    }
  }

  lemma {:induction false} ForgottenAppend<T>(t: seq<T>, h: seq<T>, c: nat, x: T, y: T)
    requires Forgotten(t, h, c, y) && y != x && x !in t
    ensures Forgotten(t + [x], h + [x], c + 1, y)
  {
    var (r, g) := (t + [x], h + [x]);
    LastUseAppend(h, x, y);
    forall i | 0 <= i < |r| ensures LastUse(g, y) < LastUse(g, r[i]) {
      LastUseAppend(h, x, r[i]);
    }
  }

  lemma {:induction false} TouchNew<T(!new)>(t: seq<T>, h: seq<T>, c: nat, x: T)
    requires HoldsLatest(t, h, c) && x !in t
    ensures HoldsLatest(t + [x], h + [x], c + 1)
  {
    var (r, g) := (t + [x], h + [x]);
    ByLastUseAppend(t, h, x);
    forall i | 0 <= i < |r| ensures Used(g, r[i]) {
      LastUseAppend(h, x, r[i]);
    }
    forall y | Used(g, y) && y !in r ensures Forgotten(r, g, c + 1, y) {
      assert r[|r| - 1] == x;
      LastUseAppend(h, x, y);
      assert forall i :: 0 <= i < |t| ==> r[i] == t[i];
      ForgottenAppend(t, h, c, x, y);
    }
  }

  lemma {:induction false} TrimmedMembers<T>(m: seq<T>, n: nat)
    ensures forall i :: 0 <= i < |Trimmed(m, n)| ==> Trimmed(m, n)[i] in m
  {
  }

  /** Fed with a history, a memory of capacity c holds exactly its last c distinct items. */
  lemma {:induction false} MemoryHoldsLatest<T(!new)>(c: nat, h: seq<T>)
    requires c > 0
    ensures HoldsLatest(TouchedAll([], c, h), h, c)
    decreases |h|
  {
    if h != [] {
      var (g, x) := (h[..|h| - 1], h[|h| - 1]);
      assert g + [x] == h;
      var m := TouchedAll([], c, g);
      MemoryHoldsLatest(c, g);
      if IndexOf(m, x) < |m| {
        TouchKnown(m, g, c, x, Touched(m, c, x));
      } else {
        TrimmedHolds(m, g, c, c - 1);
        TrimmedMembers(m, c - 1);
        TouchNew(Trimmed(m, c - 1), g, c - 1, x);
      }
    }
  }

  /** There is only one such sequence, so `HoldsLatest` leaves no choice. */
  lemma {:induction false} LatestIsUnique<T(!new)>(a: seq<T>, b: seq<T>, h: seq<T>, c: nat)
    requires HoldsLatest(a, h, c) && HoldsLatest(b, h, c) && |b| <= |a|
    ensures a == b
  {
    SameItems(a, b, h, c);
    SortedEqual(a, b, h);
  }

  lemma {:induction false} SameItems<T(!new)>(a: seq<T>, b: seq<T>, h: seq<T>, c: nat)
    requires HoldsLatest(a, h, c) && HoldsLatest(b, h, c) && |b| <= |a|
    ensures forall y :: y in b ==> y in a
    ensures |a| == |b|
  {
    forall i | 0 <= i < |b| ensures b[i] in a {
      if b[i] !in a {
        assert Used(h, b[i]);
        assert Forgotten(a, h, c, b[i]);
        forall j | 0 <= j < |a| ensures a[j] in b[i + 1..] {
          var y := a[j];
          assert Used(h, y);
          assert y in b || Forgotten(b, h, c, y);
          var k :| 0 <= k < |b| && b[k] == a[j];
          assert k > i;
          assert b[i + 1..][k - (i + 1)] == a[j];
        }
        HoldsDistinct(a, h, c);
        Pigeonhole(a, b[i + 1..]);
        assert false;
      }
    }
    if |b| < |a| {
      forall i | 0 <= i < |a| ensures a[i] in b {
        assert Used(h, a[i]);
        assert a[i] in b || Forgotten(b, h, c, a[i]);
      }
      HoldsDistinct(a, h, c);
      Pigeonhole(a, b);
    }
  }

  /** Distinct items that all occur in b are at most |b| many. */
  lemma {:induction false} Pigeonhole<T>(a: seq<T>, b: seq<T>)
    requires Distinct(a) && forall i :: 0 <= i < |a| ==> a[i] in b
    ensures |a| <= |b|
    decreases |a|
  {
    if a != [] {
      var (x, n) := (a[|a| - 1], |a| - 1);
      var k :| 0 <= k < |b| && b[k] == x;
      var w := Without(b, k);
      forall i | 0 <= i < n ensures a[..n][i] in w {
        var j :| 0 <= j < |b| && b[j] == a[i];
        assert j != k;
        assert w[if j < k then j else j - 1] == a[i];
      }
      Pigeonhole(a[..n], w);
    }
  }

  lemma {:induction false} SortedEqual<T>(a: seq<T>, b: seq<T>, h: seq<T>)
    requires |a| == |b| && forall i :: 0 <= i < |b| ==> b[i] in a
    requires ByLastUse(a, h) && ByLastUse(b, h)
    ensures a == b
    decreases |a|
  {
    if a != [] {
      var n := |a| - 1;
      LastIsSame(a, b, h);
      var (c, d) := (a[..n], b[..n]);
      InitMembers(a, b, h, c, d);
      SortedEqual(c, d, h);
      SameEnds(a, b, n);
    }
  }

  lemma {:induction false} SameEnds<T>(a: seq<T>, b: seq<T>, n: nat)
    requires |a| == |b| == n + 1 && a[..n] == b[..n] && a[n] == b[n]
    ensures a == b
  {
    assert a == a[..n] + [a[n]] && b == b[..n] + [b[n]];
  }

  lemma {:induction false} InitMembers<T>(a: seq<T>, b: seq<T>, h: seq<T>, c: seq<T>, d: seq<T>)
    requires a != [] && |a| == |b| && a[|a| - 1] == b[|b| - 1] && ByLastUse(b, h)
    requires c == a[..|a| - 1] && d == b[..|b| - 1]
    requires forall i :: 0 <= i < |b| ==> b[i] in a
    ensures forall i :: 0 <= i < |d| ==> d[i] in c
  {
    forall i | 0 <= i < |d| ensures d[i] in c {
      var k :| 0 <= k < |a| && a[k] == b[i];
      assert LastUse(h, b[i]) < LastUse(h, b[|b| - 1]);
      assert c[k] == b[i];
    }
  }

  lemma {:induction false} LastIsSame<T>(a: seq<T>, b: seq<T>, h: seq<T>)
    requires a != [] && |a| == |b| && forall i :: 0 <= i < |b| ==> b[i] in a
    requires ByLastUse(a, h) && ByLastUse(b, h)
    ensures b[|b| - 1] == a[|a| - 1]
  {
    var n := |a| - 1;
    var k :| 0 <= k < |a| && a[k] == b[n];
    if k != n {
      forall i | 0 <= i < |b| ensures b[i] in a[..n] {
        var j :| 0 <= j < |a| && a[j] == b[i];
        assert LastUse(h, b[i]) <= LastUse(h, b[n]);
        assert j <= k;
        assert a[..n][j] == b[i];
      }
      assert Distinct(b);
      Pigeonhole(b, a[..n]);
      assert false;
    }
  }

  /** With the same history, the smaller memory is the recent end of the larger one. */
  lemma {:induction false} LargerKnowsMore<T(!new)>(c: nat, d: nat, h: seq<T>)
    requires 0 < c <= d
    ensures TouchedAll([], c, h) == Trimmed(TouchedAll([], d, h), c)
  {
    var (a, b) := (TouchedAll([], c, h), TouchedAll([], d, h));
    MemoryHoldsLatest(c, h);
    MemoryHoldsLatest(d, h);
    TrimmedHolds(b, h, d, c);
    var t := Trimmed(b, c);
    if |a| <= |t| {
      LatestIsUnique(t, a, h, c);
    } else {
      LatestIsUnique(a, t, h, c);
    }
  }

  /** Shrinking the capacity keeps exactly the latest items. */
  lemma {:induction false} TrimmedHolds<T(!new)>(m: seq<T>, h: seq<T>, c: nat, n: nat)
    requires HoldsLatest(m, h, c) && n <= c
    ensures HoldsLatest(Trimmed(m, n), h, n)
  {
    var t := Trimmed(m, n);
    var d := |m| - |t|;
    assert m[d..] == t;
    forall y | Used(h, y) && y !in t ensures Forgotten(t, h, n, y) {
      if y !in m {
        assert Forgotten(m, h, c, y);
      } else {
        assert y in m[..d] by { assert m == m[..d] + t; }
      }
    }
  }

  /**
   * After a change of capacity the memory holds the latest items for the new capacity exactly if the
   * capacity did not grow or nothing had been forgotten before.
   */
  lemma {:induction false} CapacityChange<T(!new)>(m: seq<T>, h: seq<T>, c: nat, n: nat)
    requires HoldsLatest(m, h, c)
    ensures HoldsLatest(Trimmed(m, n), h, n) <==> n <= c || (forall y :: Used(h, y) ==> y in m)
  {
    if n <= c {
      TrimmedHolds(m, h, c, n);
    } else {
      assert Trimmed(m, n) == m;
      if exists y :: Used(h, y) && y !in m {
        var y :| Used(h, y) && y !in m;
        assert Forgotten(m, h, c, y);
        assert !Forgotten(m, h, n, y);
      }
    }
  }

  // ---------------------------------------------------------------- what is known

  /** The items used after the last use of x. */
  ghost function UsedSince<T>(h: seq<T>, x: T): set<T> {
    set y | y in h && LastUse(h, y) > LastUse(h, x)
  }

  lemma {:induction false} DistinctSize<T>(s: seq<T>)
    requires Distinct(s)
    ensures |set x | x in s| == |s|
  {
    if s != [] {
      var (t, x) := (s[..|s| - 1], s[|s| - 1]);
      DistinctSize(t);
      assert s == t + [x];
      assert (set y | y in s) == (set y | y in t) + {x};
    }
  }

  /** An item is known exactly if it was used and fewer than c others have been used since. */
  lemma {:induction false} KnownIffRecent<T(!new)>(m: seq<T>, h: seq<T>, c: nat, x: T)
    requires HoldsLatest(m, h, c)
    ensures x in m <==> Used(h, x) && |UsedSince(h, x)| < c
  {
    HoldsDistinct(m, h, c);
    if x in m {
      var i :| 0 <= i < |m| && m[i] == x;
      var later := m[i + 1..];
      LaterItems(m, h, c, i, later);
      DistinctSize(later);
    } else if Used(h, x) {
      assert Forgotten(m, h, c, x);
      DistinctSize(m);
      SubsetSize((set y | y in m), UsedSince(h, x));
    }
  }

  lemma {:induction false} SubsetSize<T>(a: set<T>, b: set<T>)
    requires a <= b
    ensures |a| <= |b|
  {
    assert b == a + (b - a);
  }

  lemma {:induction false} LaterItems<T(!new)>(m: seq<T>, h: seq<T>, c: nat, i: nat, later: seq<T>)
    requires HoldsLatest(m, h, c) && i < |m| && later == m[i + 1..]
    ensures UsedSince(h, m[i]) == set y | y in later
  {
    forall y | y in h && LastUse(h, y) > LastUse(h, m[i]) ensures y in later {
      assert Used(h, y);
      assert y in m || Forgotten(m, h, c, y);
      var j :| 0 <= j < |m| && m[j] == y;
      assert later[j - (i + 1)] == y;
    }
    forall k | 0 <= k < |later| ensures later[k] in UsedSince(h, m[i]) {
      assert later[k] == m[i + 1 + k] && Used(h, m[i + 1 + k]);
    }
  }
}
