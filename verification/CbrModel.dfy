/**
 * Aggregation of channel busy ratios as in section 5.2.2 of ETSI TS 102 636-4-2 V1.1.1: from the ratios
 * the neighbours report, the largest counts if their average exceeds the target, else the second largest.
 */
module CbrModel {
  import opened Sequences
  import opened Numbers
  import opened UnitIntervals

  type Load = UnitInterval

  type Timestamp = t: nat | t < 0x1_0000_0000

  /** What a location table entry knows of a neighbour's loads: its own and that of its neighbours. */
  datatype Extension = Extension(update: Timestamp, local: Load, neighbour: Load)

  type Entry = Option<Extension>

  /** Timestamps count modulo 2^32; later means less than half of the range ahead. */
  predicate Later(a: Timestamp, b: Timestamp) {
    (a > b && a - b <= 0x7fff_ffff) || (b > a && b - a > 0x7fff_ffff)
  }

  predicate Fresh(e: Entry, lifetime: Timestamp) {
    e.Some? && (Later(e.value.update, lifetime) || e.value.update == lifetime)
  }

  /** The average and the two largest of n values. */
  datatype Totals = Totals(n: nat, average: Load, largest: Load, second: Load)

  function NoTotals(): Totals {
    Totals(0, 0.0, 0.0, 0.0)
  }

  function Average(n: nat, average: Load, cbr: Load): Load {
    Clamp((average * (n as real) + cbr) / ((n + 1) as real))
  }

  function Counted(u: Totals, cbr: Load): Totals {
    var average := Average(u.n, u.average, cbr);
    if cbr >= u.largest then Totals(u.n + 1, average, cbr, u.largest)
    else Totals(u.n + 1, average, u.largest, if cbr > u.second then cbr else u.second)
  }

  function CountedAll(values: seq<Load>): Totals {
    if values == [] then NoTotals() else Counted(CountedAll(values[..|values| - 1]), values[|values| - 1])
  }

  function Chosen(u: Totals, target: Load): Load {
    if u.average > target then u.largest else u.second
  }

  /** The loads of the fresh entries, one or two hops away. */
  function ValueOf(e: Entry, lifetime: Timestamp, oneHop: bool): (r: seq<Load>)
    ensures |r| <= 1
  {
    if Fresh(e, lifetime) then [if oneHop then e.value.local else e.value.neighbour] else []
  }

  function Values(entries: seq<Entry>, lifetime: Timestamp, oneHop: bool): seq<Load> {
    if entries == [] then []
    else Values(entries[..|entries| - 1], lifetime, oneHop) + ValueOf(entries[|entries| - 1], lifetime, oneHop)
  }

  datatype State = State(local: Load, previousLocal: Load, oneHop: Load, twoHop: Load, global: Load)

  function Initial(): State {
    State(0.0, 0.0, 0.0, 0.0, 0.0)
  }

  function Aggregated(s: State, local: Load, entries: seq<Entry>, lifetime: Timestamp, target: Load): State {
    var one := Chosen(CountedAll(Values(entries, lifetime, true)), target);
    var two := Chosen(CountedAll(Values(entries, lifetime, false)), target);
    State(local, s.local, one, two, Max(Max(s.local, one), two))
  }

  // ---------------------------------------------------------------- the two largest

  /** a and b are the largest and the second largest element, equal elements counted separately. */
  ghost predicate TopTwo(m: multiset<Load>, a: Load, b: Load) {
    b <= a && multiset{a, b} <= m && forall x :: x in m - multiset{a, b} ==> x <= b
  }

  /** The values, and zero twice in case there are fewer than two. */
  ghost function Padded(values: seq<Load>): multiset<Load> {
    multiset(values) + multiset{0.0, 0.0}
  }

  lemma {:induction false} TopTwoUnique(m: multiset<Load>, a: Load, b: Load, c: Load, d: Load)
    requires TopTwo(m, a, b) && TopTwo(m, c, d)
    ensures a == c && b == d
  {
    TopIsBound(m, a, b, c);
    TopIsBound(m, c, d, a);
    if b < d {
      SecondIsBound(m, a, b, d);
    } else if d < b {
      SecondIsBound(m, c, d, b);
    }
  }

  lemma {:induction false} TopIsBound(m: multiset<Load>, a: Load, b: Load, x: Load)
    requires TopTwo(m, a, b) && x in m
    ensures x <= a
  {
    assert x == a || x == b || x in m - multiset{a, b};
  }

  lemma {:induction false} SecondIsBound(m: multiset<Load>, a: Load, b: Load, x: Load)
    requires TopTwo(m, a, b) && multiset{a, x} <= m
    ensures x <= b
  {
    assert multiset{a, x}[x] <= m[x];
    assert x in m - multiset{a, b} || m[x] <= multiset{a, b}[x];
  }

  lemma {:induction false} NewLargest(m: multiset<Load>, a: Load, b: Load, x: Load)
    requires TopTwo(m, a, b) && x >= a
    ensures TopTwo(m + multiset{x}, x, a)
  {
    assert m + multiset{x} - multiset{x, a} == m - multiset{a};
    forall y | y in m - multiset{a} ensures y <= a {
      TopIsBound(m, a, b, y);
    }
  }

  lemma {:induction false} NewSecond(m: multiset<Load>, a: Load, b: Load, x: Load)
    requires TopTwo(m, a, b) && b < x < a
    ensures TopTwo(m + multiset{x}, a, x)
  {
    assert m + multiset{x} - multiset{a, x} == m - multiset{a};
    forall y | y in m - multiset{a} ensures y <= x {
      assert y == b || y in m - multiset{a, b};
    }
  }

  lemma {:induction false} NewLower(m: multiset<Load>, a: Load, b: Load, x: Load)
    requires TopTwo(m, a, b) && x <= b
    ensures TopTwo(m + multiset{x}, a, b)
  {
    assert m + multiset{x} - multiset{a, b} == m - multiset{a, b} + multiset{x};
  }

  lemma {:induction false} TopTwoStep(m: multiset<Load>, a: Load, b: Load, x: Load)
    requires TopTwo(m, a, b)
    ensures x >= a ==> TopTwo(m + multiset{x}, x, a)
    ensures b < x < a ==> TopTwo(m + multiset{x}, a, x)
    ensures x <= b && x < a ==> TopTwo(m + multiset{x}, a, b)
  {
    if x >= a {
      NewLargest(m, a, b, x);
    } else if x > b {
      NewSecond(m, a, b, x);
    } else {
      NewLower(m, a, b, x);
    }
  }

  lemma {:induction false} PaddedStep(values: seq<Load>, n: nat)
    requires |values| == n + 1
    ensures Padded(values) == Padded(values[..n]) + multiset{values[n]}
  {
    assert values == values[..n] + [values[n]];
  }

  lemma {:induction false} CountsTopTwo(values: seq<Load>)
    ensures TopTwo(Padded(values), CountedAll(values).largest, CountedAll(values).second)
    decreases |values|
  {
    if values != [] {
      var n := |values| - 1;
      var before := CountedAll(values[..n]);
      CountsTopTwo(values[..n]);
      TopTwoStep(Padded(values[..n]), before.largest, before.second, values[n]);
      PaddedStep(values, n);
    }
  }

  // ---------------------------------------------------------------- the average

  lemma {:induction false} AverageStep(n: nat, average: Load, cbr: Load, sum: real)
    requires Times(average, n as real) == sum && 0.0 <= sum + cbr <= (n + 1) as real
    ensures Times(Average(n, average, cbr), (n + 1) as real) == sum + cbr
  {
    Quotient(sum + cbr, n + 1);
  }

  lemma {:induction false} SumBound(values: seq<Load>)
    ensures 0.0 <= Sum(values) <= |values| as real
    decreases |values|
  {
    if values != [] {
      SumBound(values[..|values| - 1]);
    }
  }

  lemma {:induction false} Quotient(sum: real, n: nat)
    requires 0 < n && 0.0 <= sum <= n as real
    ensures 0.0 <= sum / (n as real) <= 1.0 && (sum / (n as real)) * (n as real) == sum
  {
  }

  lemma {:induction false} CountsAverage(values: seq<Load>)
    ensures CountedAll(values).n == |values|
    ensures Times(CountedAll(values).average, |values| as real) == Sum(values)
    decreases |values|
  {
    if values != [] {
      var n := |values| - 1;
      CountsAverage(values[..n]);
      SumBound(values);
      AverageStep(n, CountedAll(values[..n]).average, values[n], Sum(values[..n]));
    }
  }

  /** The average is the exact mean of all values (clamping never changes it), the others are the two largest. */
  lemma {:induction false} CountsExactly(values: seq<Load>)
    ensures var u := CountedAll(values);
            && u.n == |values| && TopTwo(Padded(values), u.largest, u.second)
            && u.average == if values == [] then 0.0 else Sum(values) / (|values| as real)
  {
    CountsTopTwo(values);
    CountsAverage(values);
    if values != [] {
      SumBound(values);
      ExactMean(CountedAll(values).average, Sum(values), |values|);
    }
  }

  lemma {:induction false} ExactMean(average: Load, sum: real, n: nat)
    requires 0 < n && 0.0 <= sum <= n as real && Times(average, n as real) == sum
    ensures average == sum / (n as real)
  {
    Quotient(sum, n);
    SameQuotient(average, sum / (n as real), n as real);
  }

  lemma {:induction false} SameQuotient(a: real, b: real, n: real)
    requires n > 0.0 && Times(a, n) == Times(b, n)
    ensures a == b
  {
    assert (a - b) * n == 0.0;
  }

  // ---------------------------------------------------------------- the order does not matter

  lemma {:induction false} WithoutCut<T>(s: seq<T>, i: nat, n: nat)
    requires i < n && |s| == n + 1
    ensures |Without(s, i)| == n && Without(s, i)[n - 1] == s[n] && Without(s, i)[..n - 1] == Without(s[..n], i)
  {
  }

  lemma {:induction false} SumSplit(a: seq<Load>, b: seq<Load>)
    ensures Sum(a + b) == Sum(a) + Sum(b)
    decreases |b|
  {
    if b == [] {
      assert a + b == a;
    } else {
      assert (a + b)[..|a + b| - 1] == a + b[..|b| - 1];
      SumSplit(a, b[..|b| - 1]);
    }
  }

  /** All values are those of the rest and those of one more list. */
  ghost predicate Parts(all: seq<Load>, rest: seq<Load>, one: seq<Load>) {
    multiset(all) == multiset(rest) + multiset(one) && Sum(all) == Sum(rest) + Sum(one) && |all| == |rest| + |one|
  }

  lemma {:induction false} PartsAppend(all: seq<Load>, rest: seq<Load>, one: seq<Load>, last: seq<Load>)
    requires Parts(all, rest, one)
    ensures Parts(all + last, rest + last, one)
  {
    SumSplit(all, last);
    SumSplit(rest, last);
  }

  lemma {:induction false} PartsOfSum(rest: seq<Load>, one: seq<Load>)
    ensures Parts(rest + one, rest, one)
  {
    SumSplit(rest, one);
  }

  lemma {:induction false} WithoutValues(entries: seq<Entry>, i: nat, n: nat, lifetime: Timestamp, oneHop: bool)
    requires i < n && |entries| == n + 1
    ensures Values(Without(entries, i), lifetime, oneHop)
         == Values(Without(entries[..n], i), lifetime, oneHop) + ValueOf(entries[n], lifetime, oneHop)
  {
    WithoutCut(entries, i, n);
  }

  lemma {:induction false} ValuesSnoc(entries: seq<Entry>, n: nat, lifetime: Timestamp, oneHop: bool)
    requires |entries| == n + 1
    ensures Values(entries, lifetime, oneHop)
         == Values(entries[..n], lifetime, oneHop) + ValueOf(entries[n], lifetime, oneHop)
  {
  }

  lemma {:induction false} ValuesWithout(
    entries: seq<Entry>, i: nat, lifetime: Timestamp, oneHop: bool, all: seq<Load>, rest: seq<Load>, one: seq<Load>)
    requires i < |entries| && all == Values(entries, lifetime, oneHop)
    requires rest == Values(Without(entries, i), lifetime, oneHop) && one == ValueOf(entries[i], lifetime, oneHop)
    ensures Parts(all, rest, one)
    decreases |entries|
  {
    var n := |entries| - 1;
    var before := Values(entries[..n], lifetime, oneHop);
    ValuesSnoc(entries, n, lifetime, oneHop);
    if i == n {
      assert Without(entries, i) == entries[..n];
      PartsOfSum(before, one);
    } else {
      var less := Values(Without(entries[..n], i), lifetime, oneHop);
      ValuesWithout(entries[..n], i, lifetime, oneHop, before, less, one);
      WithoutValues(entries, i, n, lifetime, oneHop);
      PartsAppend(before, less, one, ValueOf(entries[n], lifetime, oneHop));
    }
  }

  /** The same values, in any order. */
  ghost predicate Alike(x: seq<Load>, y: seq<Load>) {
    multiset(x) == multiset(y) && Sum(x) == Sum(y) && |x| == |y|
  }

  lemma {:induction false} AlikeParts(x: seq<Load>, y: seq<Load>, u: seq<Load>, v: seq<Load>, one: seq<Load>)
    requires Parts(x, u, one) && Parts(y, v, one) && Alike(u, v)
    ensures Alike(x, y)
  {
  }

  lemma {:induction false} SameValues(a: seq<Entry>, b: seq<Entry>, lifetime: Timestamp, oneHop: bool)
    requires multiset(a) == multiset(b)
    ensures Alike(Values(a, lifetime, oneHop), Values(b, lifetime, oneHop))
    decreases |a|
  {
    if a == [] {
      assert |multiset(b)| == |b|;
    } else {
      var n := |a| - 1;
      assert a[n] in multiset(b);
      var i :| 0 <= i < |b| && b[i] == a[n];
      WithoutMultiset(a, n);
      WithoutMultiset(b, i);
      var (c, d) := (Without(a, n), Without(b, i));
      SameValues(c, d, lifetime, oneHop);
      var (x, y) := (Values(a, lifetime, oneHop), Values(b, lifetime, oneHop));
      var (u, v) := (Values(c, lifetime, oneHop), Values(d, lifetime, oneHop));
      var one := ValueOf(a[n], lifetime, oneHop);
      ValuesWithout(a, n, lifetime, oneHop, x, u, one);
      ValuesWithout(b, i, lifetime, oneHop, y, v, one);
      AlikeParts(x, y, u, v, one);
    }
  }

  lemma {:induction false} SameTotals(x: seq<Load>, y: seq<Load>)
    requires Alike(x, y)
    ensures CountedAll(x) == CountedAll(y)
  {
    CountsExactly(x);
    CountsExactly(y);
    var (u, v) := (CountedAll(x), CountedAll(y));
    TopTwoUnique(Padded(x), u.largest, u.second, v.largest, v.second);
  }

  /** The aggregated ratios are the same in whatever order the location table is visited. */
  lemma {:induction false} OrderDoesNotMatter(
    s: State, local: Load, a: seq<Entry>, b: seq<Entry>, lifetime: Timestamp, target: Load)
    requires multiset(a) == multiset(b)
    ensures Aggregated(s, local, a, lifetime, target) == Aggregated(s, local, b, lifetime, target)
  {
    SameValues(a, b, lifetime, true);
    SameValues(a, b, lifetime, false);
    SameTotals(Values(a, lifetime, true), Values(b, lifetime, true));
    SameTotals(Values(a, lifetime, false), Values(b, lifetime, false));
  }

  // ---------------------------------------------------------------- what is aggregated

  /** How many fresh entries report this load. */
  function Reports(entries: seq<Entry>, lifetime: Timestamp, oneHop: bool, x: Load): nat {
    if entries == [] then 0
    else
      var e := entries[0];
      Reports(entries[1..], lifetime, oneHop, x)
      + if Fresh(e, lifetime) && x == (if oneHop then e.value.local else e.value.neighbour) then 1 else 0
  }

  lemma {:induction false} ReportsSnoc(entries: seq<Entry>, n: nat, lifetime: Timestamp, oneHop: bool, x: Load)
    requires |entries| == n + 1
    ensures Reports(entries, lifetime, oneHop, x)
         == Reports(entries[..n], lifetime, oneHop, x) + Reports([entries[n]], lifetime, oneHop, x)
    decreases n
  {
    if n == 0 {
      assert entries == [entries[0]];
    } else {
      ReportsSnoc(entries[1..], n - 1, lifetime, oneHop, x);
      assert entries[1..][..n - 1] == entries[..n][1..];
    }
  }

  /** Exactly the fresh entries count, each with its own load. */
  lemma {:induction false} ValuesAreReports(entries: seq<Entry>, lifetime: Timestamp, oneHop: bool, x: Load)
    ensures multiset(Values(entries, lifetime, oneHop))[x] == Reports(entries, lifetime, oneHop, x)
    decreases |entries|
  {
    if entries != [] {
      var n := |entries| - 1;
      ValuesAreReports(entries[..n], lifetime, oneHop, x);
      ReportsSnoc(entries, n, lifetime, oneHop, x);
    }
  }

  /** The answer to n values: the largest if their mean exceeds the target, else the second largest. */
  lemma {:induction false} ChosenIs(values: seq<Load>, target: Load, a: Load, b: Load)
    requires TopTwo(Padded(values), a, b)
    ensures Chosen(CountedAll(values), target)
         == if values != [] && Sum(values) / (|values| as real) > target then a else b
  {
    CountsExactly(values);
    var u := CountedAll(values);
    TopTwoUnique(Padded(values), a, b, u.largest, u.second);
  }

  /**
   * The one-hop and the two-hop ratio are the largest of the fresh local and neighbour ratios if their
   * mean exceeds the target, else the second largest, zero if there is none; the global one is the
   * greatest of these and the previous local one.
   */
  lemma {:induction false} AggregatedIs(
    s: State, local: Load, entries: seq<Entry>, lifetime: Timestamp, target: Load, v: seq<Load>, w: seq<Load>,
    a: Load, b: Load, c: Load, d: Load, r: State)
    requires v == Values(entries, lifetime, true) && TopTwo(Padded(v), a, b)
    requires w == Values(entries, lifetime, false) && TopTwo(Padded(w), c, d)
    requires r == Aggregated(s, local, entries, lifetime, target)
    ensures r.oneHop == if v != [] && Sum(v) / (|v| as real) > target then a else b
    ensures r.twoHop == if w != [] && Sum(w) / (|w| as real) > target then c else d
    ensures r.global in {s.local, r.oneHop, r.twoHop}
    ensures s.local <= r.global && r.oneHop <= r.global && r.twoHop <= r.global
    ensures r.local == local && r.previousLocal == s.local
  {
    ChosenIs(v, target, a, b);
    ChosenIs(w, target, c, d);
    Greatest(s.local, r.oneHop, r.twoHop);
  }

  lemma {:induction false} Greatest(x: real, y: real, z: real)
    ensures var m := Max(Max(x, y), z); m in {x, y, z} && x <= m && y <= m && z <= m
  {
  }

  /** How far a is ahead of b, modulo 2^32. */
  function Lead(a: Timestamp, b: Timestamp): nat {
    (a - b) % 0x1_0000_0000
  }

  /**
   * Of two different timestamps exactly one is later: the one that is less than half of the range ahead,
   * or the smaller number if they are half of the range apart.
   */
  lemma {:induction false} LaterIsAhead(a: Timestamp, b: Timestamp)
    ensures a != b ==> (Later(a, b) <==> !Later(b, a))
    ensures Later(a, b) <==> 0 < Lead(a, b) < 0x8000_0000 || (Lead(a, b) == 0x8000_0000 && a < b)
  {
    if a >= b {
      assert Lead(a, b) == a - b;
    } else {
      assert (a - b) % 0x1_0000_0000 == a - b + 0x1_0000_0000;
    }
  }

  /** An entry counts if its update is not before the given time. */
  lemma {:induction false} FreshIs(e: Entry, lifetime: Timestamp)
    ensures Fresh(e, lifetime) <==>
            e.Some? && (Lead(e.value.update, lifetime) < 0x8000_0000 ||
                        (Lead(e.value.update, lifetime) == 0x8000_0000 && e.value.update < lifetime))
  {
    if e.Some? {
      LaterIsAhead(e.value.update, lifetime);
    }
  }
}
