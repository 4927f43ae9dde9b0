/**
 * The burst budget: a circular buffer of send times that admits short bursts.
 *
 * The buffer holds at most `capacity` send times. While it is neither full nor older than the burst
 * duration, sending is free; later it stays closed until the burst period has passed since the oldest
 * remembered send.
 */
module BurstBudget {
  import opened Sequences
  import opened Runtime

  datatype Parameters = Parameters(capacity: nat, duration: Duration, period: Duration)

  /** What the configuration asserts: a burst is shorter than the period between bursts. */
  predicate Proper(p: Parameters) {
    0 < p.duration < p.period
  }

  /** Waiting time and remembered send times after asking for the delay. */
  function DelayAt(p: Parameters, messages: seq<Time>, now: Time): (r: (Duration, seq<Time>)) {
    if messages == [] then (0, messages)
    else if messages[0] + p.duration > now && |messages| != p.capacity then (0, messages)
    else if messages[0] + p.period < now then (0, [])
    else (messages[0] + p.period - now, messages)
  }

  /** A full circular buffer overwrites its oldest element. */
  function Pushed(p: Parameters, messages: seq<Time>, now: Time): seq<Time> {
    if p.capacity == 0 then messages
    else if |messages| >= p.capacity then messages[1..] + [now]
    else messages + [now]
  }

  class Budget {
    const p: Parameters
    const runtime: ManualRuntime
    var messages: seq<Time>

    constructor (p: Parameters, runtime: ManualRuntime)
      requires Proper(p)
      ensures this.p == p && this.runtime == runtime && messages == []
    {
      this.p, this.runtime, messages := p, runtime, [];
    }

    method Delay() returns (delay: Duration)
      modifies this
      ensures (delay, messages) == DelayAt(p, old(messages), runtime.now)
    {
      if messages == [] {
        delay := 0;
      } else if messages[0] + p.duration > runtime.now && |messages| != p.capacity {
        delay := 0;
      } else if messages[0] + p.period < runtime.now {
        messages := [];
        delay := 0;
      } else {
        delay := messages[0] + p.period - runtime.now;
      }
    }

    method Notify()
      modifies this
      ensures messages == Pushed(p, old(messages), runtime.now)
    {
      if p.capacity > 0 {
        if |messages| >= p.capacity {
          messages := messages[1..];
        }
        messages := messages + [runtime.now];
      }
    }
  }

  // ---------------------------------------------------------------- runs

  /** A client asks for the delay, and sends and notifies only if the answer is zero. */
  datatype Act = Ask(at: Time) | Send(at: Time)

  /**
   * A run so far: all send times, and the positions at which the budget was cleared. Each position
   * starts an epoch that lasts until the next one.
   */
  datatype Trace = Trace(messages: seq<Time>, sends: seq<Time>, epochs: seq<nat>, now: Time)

  function Asked(p: Parameters, t: Trace, at: Time): Trace {
    var m := DelayAt(p, t.messages, at).1;
    t.(messages := m, epochs := t.epochs + if m != t.messages then [|t.sends|] else [], now := at)
  }

  function Stepped(p: Parameters, t: Trace, a: Act): Trace {
    var q := Asked(p, t, a.at);
    if a.Ask? then q
    else q.(messages := Pushed(p, q.messages, a.at), sends := q.sends + [a.at])
  }

  predicate Allowed(p: Parameters, t: Trace, a: Act) {
    t.now <= a.at && (a.Send? ==> DelayAt(p, t.messages, a.at).0 == 0)
  }

  ghost predicate Legal(p: Parameters, t: Trace, acts: seq<Act>)
    decreases |acts|
  {
    acts == [] || (Allowed(p, t, acts[0]) && Legal(p, Stepped(p, t, acts[0]), acts[1..]))
  }

  function After(p: Parameters, t: Trace, acts: seq<Act>): Trace
    decreases |acts|
  {
    if acts == [] then t else After(p, Stepped(p, t, acts[0]), acts[1..])
  }

  function Start(now: Time): Trace {
    Trace([], [], [0], now)
  }

  // ---------------------------------------------------------------- invariant

  function Max(a: int, b: int): int {
    if a < b then b else a
  }

  function End(t: Trace, e: nat): int {
    if e + 1 < |t.epochs| then t.epochs[e + 1] else |t.sends|
  }

  /** Position of the oldest send of an epoch that is still remembered at its end. */
  function Oldest(p: Parameters, t: Trace, e: nat): int
    requires e < |t.epochs|
  {
    Max(t.epochs[e], End(t, e) - p.capacity)
  }

  ghost predicate Ascending(s: seq<Time>) {
    forall i, j :: 0 <= i <= j < |s| ==> s[i] <= s[j]
  }

  ghost predicate Shaped(t: Trace) {
    && 0 < |t.epochs| && t.epochs[0] == 0
    && (forall e, f :: 0 <= e < f < |t.epochs| ==> t.epochs[e] < t.epochs[f])
    && t.epochs[|t.epochs| - 1] <= |t.sends|
    && Ascending(t.sends)
    && (forall i :: 0 <= i < |t.sends| ==> t.sends[i] <= t.now)
  }

  /** Within an epoch, a send comes a period after the one `capacity` places before it. */
  ghost predicate Spread(p: Parameters, t: Trace, e: nat)
    requires e < |t.epochs|
  {
    forall i, j :: 0 <= i <= j < |t.sends| && t.epochs[e] <= i && j == i + p.capacity && j < End(t, e) ==>
      t.sends[i] + p.period <= t.sends[j]
  }

  /** An epoch starts more than a period after the oldest remembered send of the one before. */
  ghost predicate Apart(p: Parameters, t: Trace, e: nat)
    requires e + 1 < |t.epochs|
  {
    var (o, s) := (Oldest(p, t, e), t.epochs[e + 1]);
    && 0 <= o < s <= |t.sends|
    && t.sends[o] + p.period < (if s < |t.sends| then t.sends[s] else t.now)
  }

  ghost predicate Inv(p: Parameters, t: Trace) {
    && Proper(p) && p.capacity > 0
    && Shaped(t)
    && t.messages == t.sends[Oldest(p, t, |t.epochs| - 1)..]
    && (forall e :: 0 <= e < |t.epochs| ==> Spread(p, t, e))
    && (forall e :: 0 <= e < |t.epochs| - 1 ==> Apart(p, t, e))
  }

  lemma {:induction false} LaterInv(p: Parameters, t: Trace, q: Trace)
    requires Inv(p, t) && t.now <= q.now && q == t.(now := q.now)
    ensures Inv(p, q)
  {
    forall e | 0 <= e < |q.epochs| ensures Spread(p, q, e) { assert Spread(p, t, e); }
    forall e | 0 <= e < |q.epochs| - 1 ensures Apart(p, q, e) { assert Apart(p, t, e); }
  }

  lemma {:induction false} ClearedInv(p: Parameters, t: Trace, q: Trace)
    requires Inv(p, t) && t.messages != [] && t.messages[0] + p.period < t.now
    requires q == t.(messages := [], epochs := t.epochs + [|t.sends|])
    ensures Inv(p, q)
  {
    var last := |t.epochs| - 1;
    assert t.messages[0] == t.sends[Oldest(p, t, last)];
    forall e | 0 <= e < |q.epochs| ensures Spread(p, q, e) {
      if e <= last { assert Spread(p, t, e) && End(q, e) == End(t, e); }
    }
    forall e | 0 <= e < |q.epochs| - 1 ensures Apart(p, q, e) {
      if e < last { assert Apart(p, t, e); }
      assert End(q, e) == End(t, e);
    }
  }

  lemma {:induction false} AskedInv(p: Parameters, t: Trace, at: Time)
    requires Inv(p, t) && t.now <= at
    ensures Inv(p, Asked(p, t, at))
  {
    var l := t.(now := at);
    LaterInv(p, t, l);
    if DelayAt(p, t.messages, at).1 != t.messages {
      ClearedInv(p, l, Asked(p, t, at));
    } else {
      assert Asked(p, t, at) == l;
    }
  }

  lemma {:induction false} SentMessages(p: Parameters, q: Trace, r: Trace)
    requires Inv(p, q)
    requires r == q.(messages := Pushed(p, q.messages, q.now), sends := q.sends + [q.now])
    ensures r.messages == r.sends[Oldest(p, r, |r.epochs| - 1)..]
  {
  }

  lemma {:induction false} SentSpread(p: Parameters, q: Trace, r: Trace, e: nat)
    requires Inv(p, q) && DelayAt(p, q.messages, q.now) == (0, q.messages)
    requires r == q.(messages := Pushed(p, q.messages, q.now), sends := q.sends + [q.now])
    requires e < |q.epochs|
    ensures Spread(p, r, e)
  {
    assert Spread(p, q, e);
    var n := |q.sends|;
    if e == |q.epochs| - 1 && q.epochs[e] <= n - p.capacity {
      assert q.messages[0] == q.sends[n - p.capacity];
    }
  }

  lemma {:induction false} SentInv(p: Parameters, q: Trace, r: Trace)
    requires Inv(p, q) && DelayAt(p, q.messages, q.now) == (0, q.messages)
    requires r == q.(messages := Pushed(p, q.messages, q.now), sends := q.sends + [q.now])
    ensures Inv(p, r)
  {
    SentMessages(p, q, r);
    SentShaped(q, r);
    forall e | 0 <= e < |r.epochs| ensures Spread(p, r, e) { SentSpread(p, q, r, e); }
    forall e | 0 <= e < |r.epochs| - 1 ensures Apart(p, r, e) { SentApart(p, q, r, e); }
  }

  lemma {:induction false} SentShaped(q: Trace, r: Trace)
    requires Shaped(q) && r == q.(messages := r.messages, sends := q.sends + [q.now])
    ensures Shaped(r)
  {
  }

  lemma {:induction false} SentApart(p: Parameters, q: Trace, r: Trace, e: nat)
    requires Inv(p, q) && e + 1 < |q.epochs|
    requires r == q.(messages := r.messages, sends := q.sends + [q.now])
    ensures Apart(p, r, e)
  {
    assert Apart(p, q, e);
    assert End(r, e) == End(q, e);
  }

  /** Once asked, asking again at the same instant changes nothing. */
  lemma {:induction false} SteppedInv(p: Parameters, t: Trace, a: Act)
    requires Inv(p, t) && Allowed(p, t, a)
    ensures Inv(p, Stepped(p, t, a))
  {
    AskedInv(p, t, a.at);
    if a.Send? {
      SentInv(p, Asked(p, t, a.at), Stepped(p, t, a));
    }
  }

  lemma {:induction false} RunInv(p: Parameters, t: Trace, acts: seq<Act>)
    requires Inv(p, t) && Legal(p, t, acts)
    ensures Inv(p, After(p, t, acts))
    decreases |acts|
  {
    if acts != [] {
      SteppedInv(p, t, acts[0]);
      RunInv(p, Stepped(p, t, acts[0]), acts[1..]);
    }
  }

  // ---------------------------------------------------------------- windows

  /** Number of times in the half-open window [from, to). */
  function Count(s: seq<Time>, from: Time, to: Time): nat {
    if s == [] then 0 else (if from <= s[0] < to then 1 else 0) + Count(s[1..], from, to)
  }

  lemma {:induction false} CountConcat(a: seq<Time>, b: seq<Time>, from: Time, to: Time)
    ensures Count(a + b, from, to) == Count(a, from, to) + Count(b, from, to)
  {
    if a == [] {
      assert a + b == b;
    } else {
      CountConcat(a[1..], b, from, to);
      assert (a + b)[1..] == a[1..] + b;
    }
  }

  lemma {:induction false} CountAtMost(s: seq<Time>, from: Time, to: Time)
    ensures Count(s, from, to) <= |s|
    ensures (forall i :: 0 <= i < |s| ==> !(from <= s[i] < to)) ==> Count(s, from, to) == 0
    ensures (forall i :: 0 <= i < |s| ==> from <= s[i] < to) ==> Count(s, from, to) == |s|
  {
    if s != [] {
      CountAtMost(s[1..], from, to);
    }
  }

  /** Sends k places apart are a period apart. */
  ghost predicate PeriodApart(s: seq<Time>, k: nat, period: Duration) {
    forall i, j :: 0 <= i <= j < |s| && j == i + k ==> s[i] + period <= s[j]
  }

  lemma {:induction false} PeriodApartTail(s: seq<Time>, k: nat, period: Duration)
    requires s != [] && PeriodApart(s, k, period) && Ascending(s)
    ensures PeriodApart(s[1..], k, period) && Ascending(s[1..])
  {
  }

  lemma {:induction false} SparseEnd(s: seq<Time>, k: nat, from: Time, to: Time)
    requires Ascending(s) && k < |s| && to <= s[k]
    ensures Count(s, from, to) <= k
  {
    var (a, b) := (s[..k], s[k..]);
    assert s == a + b;
    CountConcat(a, b, from, to);
    CountAtMost(a, from, to);
    CountAtMost(b, from, to);
  }

  /** If sends k places apart are a period apart, a window of one period sees at most k of them. */
  lemma {:induction false} Sparse(s: seq<Time>, k: nat, from: Time, period: Duration, to: Time)
    requires Ascending(s) && PeriodApart(s, k, period) && to == from + period
    ensures Count(s, from, to) <= k
    decreases |s|
  {
    if s != [] && s[0] < from {
      PeriodApartTail(s, k, period);
      Sparse(s[1..], k, from, period, to);
    } else if |s| <= k {
      CountAtMost(s, from, to);
    } else {
      assert s[0] + period <= s[k];
      SparseEnd(s, k, from, to);
    }
  }

  function Sends(t: Trace, e: nat): seq<Time>
    requires e < |t.epochs| && 0 <= t.epochs[e] <= End(t, e) <= |t.sends|
  {
    t.sends[t.epochs[e]..End(t, e)]
  }

  lemma {:induction false} EpochBounds(t: Trace, e: nat)
    requires Shaped(t) && e < |t.epochs|
    ensures 0 <= t.epochs[e] <= End(t, e) <= |t.sends|
  {
  }

  /** The epoch a send belongs to. */
  lemma {:induction false} EpochOf(t: Trace, j: nat, e: nat) returns (f: nat)
    requires Shaped(t) && e < |t.epochs| && t.epochs[e] <= j < |t.sends|
    ensures e <= f < |t.epochs| && t.epochs[f] <= j < End(t, f)
    decreases |t.epochs| - e
  {
    if e + 1 < |t.epochs| && t.epochs[e + 1] <= j {
      f := EpochOf(t, j, e + 1);
    } else {
      f := e;
    }
  }

  /** Sends 2N - 1 places apart are a period apart, whatever epochs they belong to. */
  lemma {:induction false} Wide(p: Parameters, t: Trace, i: nat, j: nat)
    requires Inv(p, t) && j == i + 2 * p.capacity - 1 < |t.sends|
    ensures t.sends[i] + p.period <= t.sends[j]
  {
    var e := EpochOf(t, j, 0);
    assert Spread(p, t, e);
    if t.epochs[e] <= j - p.capacity {
      assert t.sends[j - p.capacity] + p.period <= t.sends[j];
    } else {
      assert Apart(p, t, e - 1);
      assert t.sends[i] <= t.sends[Oldest(p, t, e - 1)];
    }
  }

  lemma {:induction false} StartInv(p: Parameters, now: Time)
    requires Proper(p) && p.capacity > 0
    ensures Inv(p, Start(now))
  {
  }

  /**
   * A client that only sends when the delay is zero sends at most 2N - 1 times in any half-open window
   * of one burst period, where N is the capacity.
   */
  lemma {:induction false} WindowBound(p: Parameters, now: Time, acts: seq<Act>, from: Time)
    requires Proper(p) && p.capacity > 0 && Legal(p, Start(now), acts)
    ensures Count(After(p, Start(now), acts).sends, from, from + p.period) <= 2 * p.capacity - 1
  {
    StartInv(p, now);
    RunWindow(p, Start(now), acts, After(p, Start(now), acts), from, from + p.period);
  }

  lemma {:induction false} RunWindow(p: Parameters, s: Trace, acts: seq<Act>, t: Trace, from: Time, to: Time)
    requires Inv(p, s) && Proper(p) && p.capacity > 0 && Legal(p, s, acts) && t == After(p, s, acts)
    requires to == from + p.period
    ensures Count(t.sends, from, to) <= 2 * p.capacity - 1
  {
    RunInv(p, s, acts);
    InvWindow(p, t, from, to);
  }

  lemma {:induction false} InvWindow(p: Parameters, t: Trace, from: Time, to: Time)
    requires Inv(p, t) && Proper(p) && p.capacity > 0 && to == from + p.period
    ensures Count(t.sends, from, to) <= 2 * p.capacity - 1
  {
    WideApart(p, t, 2 * p.capacity - 1);
    Sparse(t.sends, 2 * p.capacity - 1, from, p.period, to);
  }

  lemma {:induction false} WideApart(p: Parameters, t: Trace, k: nat)
    requires Inv(p, t) && Proper(p) && p.capacity > 0 && k == 2 * p.capacity - 1
    ensures Ascending(t.sends) && PeriodApart(t.sends, k, p.period)
  {
    forall i, j | 0 <= i <= j < |t.sends| && j == i + k ensures t.sends[i] + p.period <= t.sends[j] {
      Wide(p, t, i, j);
    }
  }

  /** The traces of clients that only send when the delay is zero. */
  ghost predicate Reachable(p: Parameters, t: Trace) {
    && Proper(p) && p.capacity > 0
    && exists now, acts :: Legal(p, Start(now), acts) && t == After(p, Start(now), acts)
  }

  lemma {:induction false} ReachableInv(p: Parameters, t: Trace)
    requires Reachable(p, t)
    ensures Inv(p, t)
  {
    var now, acts :| Legal(p, Start(now), acts) && t == After(p, Start(now), acts);
    StartInv(p, now);
    RunInv(p, Start(now), acts);
  }

  /** One epoch puts at most N sends into such a window. */
  lemma {:induction false} EpochBound(p: Parameters, t: Trace, e: nat, from: Time)
    requires Reachable(p, t) && e < |t.epochs|
    ensures 0 <= t.epochs[e] <= End(t, e) <= |t.sends|
    ensures Count(Sends(t, e), from, from + p.period) <= p.capacity
  {
    ReachableInv(p, t);
    EpochBounds(t, e);
    assert Spread(p, t, e);
    var s := Sends(t, e);
    assert forall i :: 0 <= i < |s| ==> s[i] == t.sends[t.epochs[e] + i];
    Sparse(s, p.capacity, from, p.period, from + p.period);
  }

  /**
   * If a window sees a send of a later epoch, it sees at most N - 1 of this one and none of the
   * earlier ones.
   */
  lemma {:induction false} AdjacentBound(p: Parameters, t: Trace, e: nat, x: nat, from: Time)
    requires Reachable(p, t) && e + 1 < |t.epochs|
    requires t.epochs[e + 1] <= x < |t.sends| && from <= t.sends[x] < from + p.period
    ensures 0 <= t.epochs[e] <= End(t, e) <= |t.sends|
    ensures Count(Sends(t, e), from, from + p.period) <= p.capacity - 1
    ensures Count(t.sends[..t.epochs[e]], from, from + p.period) == 0
  {
    ReachableInv(p, t);
    EpochBounds(t, e);
    assert Apart(p, t, e);
    var o := Oldest(p, t, e);
    assert t.sends[t.epochs[e + 1]] <= t.sends[x];
    CountFrom(t.sends, t.epochs[e], o + 1, End(t, e), from, from + p.period);
    CountFrom(t.sends, 0, t.epochs[e], t.epochs[e], from, from + p.period);
    assert t.sends[0..t.epochs[e]] == t.sends[..t.epochs[e]];
  }

  /** Sends before the window do not count. */
  lemma {:induction false} CountFrom(s: seq<Time>, a: nat, b: nat, c: nat, from: Time, to: Time)
    requires a <= b <= c <= |s| && Ascending(s)
    requires b > 0 ==> s[b - 1] < from
    ensures Count(s[a..c], from, to) <= c - b
  {
    assert s[a..c] == s[a..b] + s[b..c];
    CountConcat(s[a..b], s[b..c], from, to);
    CountAtMost(s[a..b], from, to);
    CountAtMost(s[b..c], from, to);
  }

  // ---------------------------------------------------------------- the bound is sharp

  lemma {:induction false} AfterConcat(p: Parameters, t: Trace, a: seq<Act>, b: seq<Act>)
    ensures After(p, t, a + b) == After(p, After(p, t, a), b)
    ensures Legal(p, t, a + b) <==> Legal(p, t, a) && Legal(p, After(p, t, a), b)
    decreases |a|
  {
    if a == [] {
      assert a + b == b;
    } else {
      AfterConcat(p, Stepped(p, t, a[0]), a[1..], b);
      assert (a + b)[1..] == a[1..] + b;
    }
  }

  function Repeat<T>(x: T, n: nat): (r: seq<T>)
    ensures |r| == n && forall i :: 0 <= i < n ==> r[i] == x
  {
    if n == 0 then [] else [x] + Repeat(x, n - 1)
  }

  /** While the buffer is not full and the instant is free, any number of sends fits. */
  lemma {:induction false} SendRepeatedly(p: Parameters, t: Trace, at: Time, n: nat)
    requires Proper(p) && t.now <= at && |t.messages| + n <= p.capacity
    requires n > 0 ==> DelayAt(p, t.messages, at) == (0, t.messages)
    ensures Legal(p, t, Repeat(Send(at), n))
    ensures n > 0 ==> After(p, t, Repeat(Send(at), n))
                      == t.(messages := t.messages + Repeat(at, n), sends := t.sends + Repeat(at, n), now := at)
    decreases n
  {
    if n > 0 {
      var s := Stepped(p, t, Send(at));
      assert Repeat(Send(at), n)[1..] == Repeat(Send(at), n - 1);
      assert s == t.(messages := t.messages + [at], sends := t.sends + [at], now := at);
      SendRepeatedly(p, s, at, n - 1);
      assert t.messages + [at] + Repeat(at, n - 1) == t.messages + Repeat(at, n);
      assert t.sends + [at] + Repeat(at, n - 1) == t.sends + Repeat(at, n);
    }
  }

  function Worst(p: Parameters): seq<Act>
    requires p.capacity > 0
  {
    [Send(0)] + (Repeat(Send(p.period), p.capacity - 1) + Repeat(Send(p.period + 1), p.capacity))
  }

  lemma {:induction false} WorstStart(p: Parameters, t: Trace)
    requires Proper(p) && p.capacity > 0 && t == Trace([0], [0], [0], 0)
    ensures Allowed(p, Start(0), Send(0)) && Stepped(p, Start(0), Send(0)) == t
  {
  }

  lemma {:induction false} WorstMiddle(p: Parameters, n: nat, t: Trace, u: Trace)
    requires Proper(p) && p.capacity == n > 0 && t == Trace([0], [0], [0], 0)
    requires u == After(p, t, Repeat(Send(p.period), n - 1))
    ensures Legal(p, t, Repeat(Send(p.period), n - 1)) && u.sends == [0] + Repeat(p.period, n - 1)
    ensures u.now <= p.period && u.messages != [] && u.messages[0] == 0
  {
    SendRepeatedly(p, t, p.period, n - 1);
    assert [0] + Repeat(p.period, 0) == [0];
  }

  lemma {:induction false} WorstRun(p: Parameters, n: nat)
    requires Proper(p) && p.capacity == n > 0
    ensures Legal(p, Start(0), Worst(p))
    ensures After(p, Start(0), Worst(p)).sends == [0] + Repeat(p.period, n - 1) + Repeat(p.period + 1, n)
  {
    var (a, b, c) := ([Send(0)], Repeat(Send(p.period), n - 1), Repeat(Send(p.period + 1), n));
    var t := Trace([0], [0], [0], 0);
    var u := After(p, t, b);
    WorstStart(p, t);
    AfterOne(p, Start(0), Send(0));
    AfterConcat(p, Start(0), a, b + c);
    AfterConcat(p, t, b, c);
    WorstMiddle(p, n, t, u);
    Reopened(p, u, p.period + 1);
  }

  /** For all parameters some client reaches the bound: the buffer is refilled on the boundary. */
  lemma {:induction false} WindowBoundIsSharp(p: Parameters)
    requires Proper(p) && p.capacity > 0
    ensures Legal(p, Start(0), Worst(p))
    ensures Count(After(p, Start(0), Worst(p)).sends, p.period, p.period + p.period) == 2 * p.capacity - 1
  {
    WorstRun(p, p.capacity);
    WorstCount(p, p.capacity);
  }

  /** A client that only sends when the delay is zero stays within the capacity in this window. */
  ghost predicate Within(p: Parameters, now: Time, acts: seq<Act>, from: Time) {
    Legal(p, Start(now), acts) ==> Count(After(p, Start(now), acts).sends, from, from + p.period) <= p.capacity
  }

  /** The capacity bounds every window of one burst period for every client exactly if it is one. */
  lemma {:induction false} CapacityIsBoundIffOne(p: Parameters)
    requires Proper(p) && p.capacity > 0
    ensures (forall now, acts, from :: Within(p, now, acts, from)) <==> p.capacity == 1
  {
    if p.capacity == 1 {
      forall now, acts, from ensures Within(p, now, acts, from) {
        if Legal(p, Start(now), acts) {
          WindowBound(p, now, acts, from);
        }
      }
    } else {
      WindowBoundIsSharp(p);
      assert !Within(p, 0, Worst(p), p.period);
    }
  }

  lemma {:induction false} AfterOne(p: Parameters, t: Trace, a: Act)
    ensures After(p, t, [a]) == Stepped(p, t, a)
    ensures Legal(p, t, [a]) <==> Allowed(p, t, a)
  {
    assert [a][1..] == [];
  }

  lemma {:induction false} WorstCount(p: Parameters, n: nat)
    requires Proper(p) && n > 0
    ensures Count([0] + Repeat(p.period, n - 1) + Repeat(p.period + 1, n), p.period, p.period + p.period) == 2 * n - 1
  {
    var (from, to) := (p.period, p.period + p.period);
    CountConcat([0] + Repeat(p.period, n - 1), Repeat(p.period + 1, n), from, to);
    CountConcat([0], Repeat(p.period, n - 1), from, to);
    CountAtMost([0], from, to);
    CountAtMost(Repeat(p.period, n - 1), from, to);
    CountAtMost(Repeat(p.period + 1, n), from, to);
  }

  /** When the period is over, a full burst can be sent at once. */
  lemma {:induction false} Reopened(p: Parameters, t: Trace, at: Time)
    requires Proper(p) && p.capacity > 0 && t.now <= at
    requires t.messages != [] && t.messages[0] + p.period < at
    ensures Legal(p, t, Repeat(Send(at), p.capacity))
    ensures After(p, t, Repeat(Send(at), p.capacity)).sends == t.sends + Repeat(at, p.capacity)
  {
    var q := t.(messages := [], epochs := t.epochs + [|t.sends|], now := at);
    assert Asked(p, t, at) == q;
    assert Stepped(p, t, Send(at)) == Stepped(p, q, Send(at)) by {
      AddNothing(q.epochs);
    }
    SendRepeatedly(p, q, at, p.capacity);
    assert Repeat(Send(at), p.capacity)[1..] == Repeat(Send(at), p.capacity - 1);
  }

  /** Without capacity nothing is remembered, so nothing is ever refused. */
  lemma {:induction false} NoCapacityNoLimit(p: Parameters, t: Trace, acts: seq<Act>)
    requires p.capacity == 0 && t.messages == []
    requires forall i :: 0 <= i < |acts| ==> t.now <= acts[i].at
    requires forall i, j :: 0 <= i < j < |acts| ==> acts[i].at <= acts[j].at
    ensures Legal(p, t, acts)
    decreases |acts|
  {
    if acts != [] {
      NoCapacityNoLimit(p, Stepped(p, t, acts[0]), acts[1..]);
    }
  }

  /** A non-zero delay is exact: the gate stays closed for that long and is open right after. */
  lemma {:induction false} DelayIsExact(p: Parameters, messages: seq<Time>, now: Time, later: Time)
    requires Proper(p) && now <= later && DelayAt(p, messages, now).0 > 0
    ensures DelayAt(p, messages, later).0 == 0 <==> now + DelayAt(p, messages, now).0 <= later
  {
  }

  /**
   * When the budget is closed: until the period after the oldest remembered send is over, and from the
   * end of the burst after it on, or as soon as the burst is full. Only after the period it forgets.
   */
  lemma {:induction false} ClosedIff(p: Parameters, messages: seq<Time>, now: Time)
    requires Proper(p)
    ensures DelayAt(p, messages, now).0 > 0 <==>
            && messages != [] && now < messages[0] + p.period
            && (|messages| == p.capacity || messages[0] + p.duration <= now)
    ensures DelayAt(p, messages, now).1 == if messages != [] && messages[0] + p.period < now then [] else messages
  {
  }
}
