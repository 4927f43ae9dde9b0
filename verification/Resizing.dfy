/**
 * Memories of recently used items whose capacity changes over time: what they know, in terms of the
 * history of uses and capacities alone.
 */
module Resizing {
  import opened Sequences
  import opened Recency

  datatype Event<T> = Use(item: T) | Resize(capacity: nat)

  function Items<T>(events: seq<Event<T>>): seq<T> {
    if events == [] then []
    else Items(events[..|events| - 1]) + if events[|events| - 1].Use? then [events[|events| - 1].item] else []
  }

  function AtLeastOne(n: nat): nat {
    if n < 1 then 1 else n
  }

  /** The capacity last set, one in the beginning. */
  function CapacityAfter<T>(events: seq<Event<T>>): (c: nat)
    ensures c > 0
  {
    if events == [] then 1
    else if events[|events| - 1].Resize? then AtLeastOne(events[|events| - 1].capacity)
    else CapacityAfter(events[..|events| - 1])
  }

  function Remembered<T(==)>(events: seq<Event<T>>): seq<T> {
    if events == [] then []
    else
      var m := Remembered(events[..|events| - 1]);
      if events[|events| - 1].Use?
      then Touched(m, CapacityAfter(events), events[|events| - 1].item)
      else Trimmed(m, CapacityAfter(events))
  }

  /** Since its last use, never as many other items had been used as there was capacity. */
  ghost predicate NeverCrowdedOut<T>(events: seq<Event<T>>, x: T) {
    var k := LastUse(events, Use(x));
    k >= 0 && forall j :: k < j <= |events| ==> |UsedSince(Items(events[..j]), x)| < CapacityAfter(events[..j])
  }

  lemma {:induction false} EventsAppend<T>(events: seq<Event<T>>, e: Event<T>, next: seq<Event<T>>)
    requires next == events + [e]
    ensures Items(next) == if e.Use? then Items(events) + [e.item] else Items(events)
    ensures CapacityAfter(next) == if e.Resize? then AtLeastOne(e.capacity) else CapacityAfter(events)
    ensures Remembered(next)
         == if e.Use? then Touched(Remembered(events), CapacityAfter(events), e.item)
            else Trimmed(Remembered(events), AtLeastOne(e.capacity))
  {
    TakeInit(events, e);
  }

  // ---------------------------------------------------------------- one use

  lemma {:induction false} TrimmedIsRecent<T(!new)>(m: seq<T>, h: seq<T>, n: nat, r: seq<T>)
    requires HoldsLatest(m, h, |m|) && r == Trimmed(m, n)
    ensures HoldsLatest(r, h, |r|) && |r| <= n
  {
    if |m| > n {
      TrimmedHolds(m, h, |m|, n);
    }
  }

  /** A memory is always the recent end of the history, however short. */
  lemma {:induction false} UseHolds<T(!new)>(m: seq<T>, h: seq<T>, c: nat, x: T, r: seq<T>)
    requires HoldsLatest(m, h, |m|) && |m| <= c && c > 0 && r == Touched(m, c, x)
    ensures HoldsLatest(r, h + [x], |r|) && |r| <= c
  {
    if IndexOf(m, x) < |m| {
      TouchKnown(m, h, |m|, x, r);
    } else {
      UseNew(m, h, c, x, Trimmed(m, c - 1));
    }
  }

  lemma {:induction false} UseNew<T(!new)>(m: seq<T>, h: seq<T>, c: nat, x: T, t: seq<T>)
    requires HoldsLatest(m, h, |m|) && c > 0 && x !in m && t == Trimmed(m, c - 1)
    ensures HoldsLatest(t + [x], h + [x], |t| + 1) && |t| + 1 <= c
  {
    TrimmedMembers(m, c - 1);
    TrimmedIsRecent(m, h, c - 1, t);
    TouchNew(t, h, |t|, x);
  }

  /** A use makes no other item known, and forgets one only if the memory is full. */
  lemma {:induction false} UseMembers<T>(m: seq<T>, c: nat, x: T, r: seq<T>, y: T)
    requires |m| <= c && c > 0 && r == Touched(m, c, x) && y != x
    ensures y in r ==> y in m
    ensures y in m && |r| < c ==> y in r
  {
    if IndexOf(m, x) < |m| {
      WithoutMembers(m, IndexOf(m, x));
    } else {
      TrimmedMembers(m, c - 1);
    }
  }

  lemma {:induction false} UseKnows<T(!new)>(m: seq<T>, h: seq<T>, c: nat, x: T, r: seq<T>, y: T)
    requires HoldsLatest(m, h, |m|) && |m| <= c && c > 0 && r == Touched(m, c, x) && y != x
    ensures y in r <==> y in m && |UsedSince(h + [x], y)| < c
  {
    UseHolds(m, h, c, x, r);
    UseMembers(m, c, x, r, y);
    KnownIffRecent(r, h + [x], |r|, y);
    if y in m {
      assert Used(h, y);
      LastUseAppend(h, x, y);
    }
  }

  lemma {:induction false} UsedJustNow<T>(h: seq<T>, x: T)
    ensures |UsedSince(h + [x], x)| == 0
  {
    LastUseAppend(h, x, x);
    assert UsedSince(h + [x], x) == {};
  }

  // ---------------------------------------------------------------- one change of capacity

  lemma {:induction false} ResizeKnows<T(!new)>(m: seq<T>, h: seq<T>, n: nat, r: seq<T>, y: T)
    requires HoldsLatest(m, h, |m|) && r == Trimmed(m, n)
    ensures HoldsLatest(r, h, |r|) && |r| <= n
    ensures y in r <==> y in m && |UsedSince(h, y)| < n
  {
    KnownIffRecent(m, h, |m|, y);
    TrimmedIsRecent(m, h, n, r);
    if n < |m| {
      TrimmedMembers(m, n);
      KnownIffRecent(r, h, n, y);
    }
  }

  // ---------------------------------------------------------------- histories

  lemma {:induction false} RememberedIsRecent<T(!new)>(events: seq<Event<T>>)
    ensures HoldsLatest(Remembered(events), Items(events), |Remembered(events)|)
    ensures |Remembered(events)| <= CapacityAfter(events)
    ensures Distinct(Remembered(events))
    decreases |events|
  {
    var m := Remembered(events);
    if events != [] {
      var (init, e) := (events[..|events| - 1], events[|events| - 1]);
      assert events == init + [e];
      EventsAppend(init, e, events);
      RememberedIsRecent(init);
      if e.Use? {
        UseHolds(Remembered(init), Items(init), CapacityAfter(init), e.item, m);
      } else {
        TrimmedIsRecent(Remembered(init), Items(init), CapacityAfter(events), m);
      }
    }
    HoldsDistinct(m, Items(events), |m|);
  }

  lemma {:induction false} CrowdedAppend<T(!new)>(events: seq<Event<T>>, e: Event<T>, next: seq<Event<T>>, x: T)
    requires next == events + [e] && e != Use(x)
    ensures NeverCrowdedOut(next, x)
       <==> NeverCrowdedOut(events, x) && |UsedSince(Items(next), x)| < CapacityAfter(next)
  {
    LastUseAppend(events, e, Use(x));
    TakeAll(next, |next|);
    forall j | 0 <= j <= |events| ensures next[..j] == events[..j] {
    }
  }

  lemma {:induction false} UsedIsNotCrowdedOut<T(!new)>(events: seq<Event<T>>, x: T, next: seq<Event<T>>)
    requires next == events + [Use(x)]
    ensures NeverCrowdedOut(next, x)
  {
    LastUseAppend(events, Use(x), Use(x));
    EventsAppend(events, Use(x), next);
    UsedJustNow(Items(events), x);
    TakeAll(next, |next|);
  }

  /**
   * After every history of uses and changes of capacity: an item is known if and only if it was used
   * and, at every moment since, fewer others had been used since than there was capacity.
   */
  lemma {:induction false} KnownIffNeverCrowdedOut<T(!new)>(events: seq<Event<T>>, x: T)
    ensures x in Remembered(events) <==> NeverCrowdedOut(events, x)
    decreases |events|
  {
    if events != [] {
      var (init, e) := (events[..|events| - 1], events[|events| - 1]);
      assert events == init + [e];
      var (m, h, r) := (Remembered(init), Items(init), Remembered(events));
      EventsAppend(init, e, events);
      RememberedIsRecent(init);
      if e == Use(x) {
        UsedIsNotCrowdedOut(init, x, events);
        assert r[|r| - 1] == x;
      } else {
        KnownIffNeverCrowdedOut(init, x);
        CrowdedAppend(init, e, events, x);
        if e.Use? {
          UseKnows(m, h, CapacityAfter(init), e.item, r, x);
        } else {
          ResizeKnows(m, h, CapacityAfter(events), r, x);
        }
      }
    }
  }
}
