/**
 * The runtime's trigger loop seen from one buffer: callbacks of others, and flushes that reschedule
 * themselves, come down to at most one flush.
 */
module CbfTrigger {
  import opened Sequences
  import opened Runtime
  import opened CbfCounter
  import opened CbfModel
  import opened CbfProofs
  import opened CbfRuns

  /**
   * State of the trigger loop when i due callbacks have run: the flush is either still to come, or all
   * that is missing is to drop the remaining callbacks of others.
   */
  ghost predicate Halfway(cfg: Config, s: Buffer, tp: Time, r: Buffer, i: nat, flushed: bool, v: Buffer) {
    var due := UpperBound(s.queue, tp);
    && i <= due
    && (flushed ==> && FlushDue(cfg, s, tp)
                    && Pending(s.queue[i..], cfg.self) == []
                    && v == r.(queue := s.queue[i..due] + r.queue))
    && (!flushed ==> && Pending(s.queue[..i], cfg.self) == []
                     && v == s.(now := tp, queue := s.queue[i..]))
  }

  lemma {:induction false} HalfwayStart(cfg: Config, s: Buffer, tp: Time, r: Buffer)
    ensures Halfway(cfg, s, tp, r, 0, false, s.(now := tp))
  {
    assert s.queue[0..] == s.queue && s.queue[..0] == [];
  }

  lemma {:induction false} HalfwayHead(cfg: Config, s: Buffer, tp: Time, r: Buffer, i: nat, flushed: bool, v: Buffer)
    requires Armed(cfg, s) && Halfway(cfg, s, tp, r, i, flushed, v)
    requires Late(r.queue, tp)
    requires v.queue != [] && v.queue[0].deadline <= tp
    ensures i < UpperBound(s.queue, tp)
    ensures v.queue[0] == s.queue[i]
    ensures v.queue[0].scope != cfg.self ==>
              Halfway(cfg, s, tp, r, i + 1, flushed, v.(queue := v.queue[1..]))
    ensures v.queue[0].scope == cfg.self ==>
              !flushed && FlushDue(cfg, s, tp) && Pending(s.queue[i + 1..], cfg.self) == []
  {
    var due := UpperBound(s.queue, tp);
    UpperBoundOrdered(s.queue, tp);
    if flushed {
      assert v.queue[1..] == s.queue[i + 1..due] + r.queue;
    }
    PendingHead(s.queue, i, due, cfg.self);
  }

  lemma {:induction false} PendingHead(q: seq<Scheduled>, i: nat, due: nat, scope: Scope)
    requires i < due <= |q| && |Pending(q, scope)| <= 1
    ensures Pending(q[i..], scope) == (if q[i].scope == scope then [q[i].deadline] else []) + Pending(q[i + 1..], scope)
    ensures Pending(q[..i + 1], scope) == Pending(q[..i], scope) + (if q[i].scope == scope then [q[i].deadline] else [])
    ensures q[i].scope == scope ==> Pending(q[..due], scope) != [] && Pending(q[i + 1..], scope) == []
  {
    DropOne(q, i, i + 1);
    assert q[..i + 1] == q[..i] + [q[i]];
    PendingConcat(q[..i], [q[i]], scope);
    assert q == q[..i + 1] + q[i + 1..];
    PendingConcat(q[..i + 1], q[i + 1..], scope);
    assert q[..due] == q[..i + 1] + q[i + 1..due];
    PendingConcat(q[..i + 1], q[i + 1..due], scope);
  }

  lemma {:induction false} AllRun(cfg: Config, s: Buffer, tp: Time, r: Buffer, i: nat, flushed: bool, v: Buffer)
    requires Halfway(cfg, s, tp, r, i, flushed, v)
    requires v.queue == [] || v.queue[0].deadline > tp
    ensures i == UpperBound(s.queue, tp)
  {
  }

  lemma {:induction false} NoSlice<T>(q: seq<T>, i: nat, r: seq<T>)
    requires i <= |q|
    ensures q[i..i] + r == r
  {
  }

  lemma {:induction false} FlushedDone(cfg: Config, s: Buffer, tp: Time, r: Buffer, i: nat, v: Buffer)
    requires Halfway(cfg, s, tp, r, i, true, v) && i == UpperBound(s.queue, tp)
    ensures v == r
  {
    NoSlice(s.queue, i, r.queue);
  }

  lemma {:induction false} WaitingDone(cfg: Config, s: Buffer, tp: Time, r: Buffer, i: nat, v: Buffer)
    requires Linked(s) && r == Triggered(cfg, s, tp)
    requires Halfway(cfg, s, tp, r, i, false, v) && i == UpperBound(s.queue, tp)
    ensures v == r
  {
    assert !FlushDue(cfg, s, tp);
  }

  lemma {:induction false} HalfwayDone(cfg: Config, s: Buffer, tp: Time, r: Buffer, i: nat, flushed: bool, v: Buffer)
    requires Linked(s) && r == Triggered(cfg, s, tp) && Halfway(cfg, s, tp, r, i, flushed, v)
    requires v.queue == [] || v.queue[0].deadline > tp
    ensures v == r
  {
    AllRun(cfg, s, tp, r, i, flushed, v);
    if flushed {
      FlushedDone(cfg, s, tp, r, i, v);
    } else {
      WaitingDone(cfg, s, tp, r, i, v);
    }
  }

  lemma {:induction false} ChargedQueue(cfg: Config, s: Buffer, q: seq<Scheduled>, t: Buffer)
    requires Linked(s) && s.timers != [] && t == s.(queue := q) && Linked(t)
    ensures Charged(cfg, t, 0).0 == Charged(cfg, s, 0).0.(queue := q)
    ensures Charged(cfg, t, 0).1 == Charged(cfg, s, 0).1
  {
  }

  lemma {:induction false} DetachedQueue(cfg: Config, s: Buffer, q: seq<Scheduled>, t: Buffer)
    requires Linked(s) && s.timers != [] && t == s.(queue := q) && Linked(t)
    ensures Detached(cfg, t, 0, Flushed) == Detached(cfg, s, 0, Flushed).(queue := q)
  {
  }

  lemma {:induction false} PoppedQueue(cfg: Config, s: Buffer, q: seq<Scheduled>, t: Buffer)
    requires Linked(s) && s.timers != [] && t == s.(queue := q) && Linked(t)
    ensures Popped(cfg, t) == Popped(cfg, s).(queue := q)
  {
    var e := s.timers[0];
    ChargedQueue(cfg, s, q, t);
    ChargedLinked(cfg, s, 0);
    ChargedLinked(cfg, t, 0);
    var (c, remaining) := Charged(cfg, s, 0);
    EntryHasSlot(s, 0);
    var packet := c.slots[FindSlot(s.slots, e.node)].packet;
    var p := if remaining > 0 then c.(log := c.log + [Passed(e.id, e.timer.expiry, s.now, packet)]) else c;
    DetachedQueue(cfg, p, q, p.(queue := q));
  }

  lemma {:induction false} PoppedAllStep(cfg: Config, s: Buffer, p: Buffer)
    requires Linked(s) && s.timers != [] && s.timers[0].timer.expiry <= s.now && p == Popped(cfg, s)
    ensures PoppedAll(cfg, s) == PoppedAll(cfg, p)
  {
  }

  lemma {:induction false} PoppedAllQueue(cfg: Config, s: Buffer, q: seq<Scheduled>, t: Buffer)
    requires Linked(s) && t == s.(queue := q) && Linked(t)
    ensures PoppedAll(cfg, t) == PoppedAll(cfg, s).(queue := q)
    decreases |s.timers|
  {
    if s.timers != [] && s.timers[0].timer.expiry <= s.now {
      var (p, u) := (Popped(cfg, s), Popped(cfg, t));
      PoppedQueue(cfg, s, q, t);
      PoppedAllStep(cfg, s, p);
      PoppedAllStep(cfg, t, u);
      PoppedAllQueue(cfg, p, q, u);
    }
  }

  lemma {:induction false} RearmEarly(cfg: Config, q: seq<Scheduled>, i: nat, due: nat, e: Scheduled)
    requires i <= due <= |q| && e.scope == cfg.self && Pending(q[i..], cfg.self) == []
    requires forall k :: 0 <= k < due ==> q[k].deadline <= e.deadline
    ensures Scheduling(Cancelled(q[i..], cfg.self), e)
         == q[i..due] + Scheduling(Cancelled(q[due..], cfg.self), e)
  {
    SplitTail(q, i, due);
    RearmBehind(q[i..due], q[due..], q[i..], e);
  }

  lemma {:induction false} RearmBehind(a: seq<Scheduled>, b: seq<Scheduled>, all: seq<Scheduled>, e: Scheduled)
    requires all == a + b && Pending(all, e.scope) == []
    requires forall k :: 0 <= k < |a| ==> a[k].deadline <= e.deadline
    ensures Scheduling(Cancelled(all, e.scope), e) == a + Scheduling(Cancelled(b, e.scope), e)
  {
    PendingConcat(a, b, e.scope);
    OthersSame(all, e.scope);
    OthersSame(b, e.scope);
    JoinCut(a, b, all);
    SchedulingPast(all, |a|, e);
  }

  lemma {:induction false} JoinCut<T>(a: seq<T>, b: seq<T>, all: seq<T>)
    requires all == a + b
    ensures all[..|a|] == a && all[|a|..] == b && forall k :: 0 <= k < |a| ==> all[k] == a[k]
  {
  }

  lemma {:induction false} SplitTail<T>(q: seq<T>, i: nat, j: nat)
    requires i <= j <= |q|
    ensures q[i..] == q[i..j] + q[j..]
  {
  }

  lemma {:induction false} EarlyFlushable(cfg: Config, s: Buffer, tp: Time, i: nat, v: Buffer)
    requires Invariant(cfg, s) && i <= |s.queue| && Pending(s.queue[i..], cfg.self) == []
    requires v == s.(now := tp, queue := s.queue[i..])
    ensures Flushable(cfg, v)
  {
  }

  /** The queue after a flush that leaves some timers behind. */
  function RearmedQueue(cfg: Config, timers: seq<Entry>, q: seq<Scheduled>): seq<Scheduled> {
    if timers == [] then q else Scheduling(Cancelled(q, cfg.self), Scheduled(timers[0].timer.expiry, cfg.self))
  }

  lemma {:induction false} FlushedElsewhere(cfg: Config, t: Buffer, q: seq<Scheduled>, v: Buffer, p: Buffer, r: Buffer)
    requires Linked(t) && Linked(v) && v == t.(queue := q) && p == PoppedAll(cfg, t) && r == FlushedAll(cfg, t)
    ensures FlushedAll(cfg, v) == r.(queue := RearmedQueue(cfg, p.timers, q))
    ensures r.queue == RearmedQueue(cfg, p.timers, t.queue)
  {
    PoppedAllQueue(cfg, t, q, v);
  }

  lemma {:induction false} EarlyQueue(cfg: Config, timers: seq<Entry>, q: seq<Scheduled>, i: nat, due: nat)
    requires i <= due <= |q| && Pending(q[i..], cfg.self) == []
    requires timers != [] ==> forall k :: 0 <= k < due ==> q[k].deadline <= timers[0].timer.expiry
    ensures RearmedQueue(cfg, timers, q[i..]) == q[i..due] + RearmedQueue(cfg, timers, q[due..])
  {
    SplitTail(q, i, due);
    if timers != [] {
      RearmEarly(cfg, q, i, due, Scheduled(timers[0].timer.expiry, cfg.self));
    }
  }

  lemma {:induction false} LeftIsLater(s: Buffer, tp: Time, t: Buffer, p: Buffer)
    requires Sorted(s.timers) && t.timers == s.timers && t.now == tp
    requires p.timers == t.timers[Expired(t.timers, t.now)..]
    ensures p.timers != [] ==> tp < p.timers[0].timer.expiry
  {
    ExpiredSorted(s.timers, tp);
  }

  /** A flush that runs before other due callbacks differs only in that these are still queued. */
  lemma {:induction false} FlushEarly(cfg: Config, s: Buffer, tp: Time, i: nat, r: Buffer, v: Buffer)
    requires Invariant(cfg, s) && i <= UpperBound(s.queue, tp) && Pending(s.queue[i..], cfg.self) == []
    requires FlushDue(cfg, s, tp) && r == Triggered(cfg, s, tp)
    requires v == s.(now := tp, queue := s.queue[i..])
    ensures Flushable(cfg, v)
    ensures Halfway(cfg, s, tp, r, i, true, FlushedAll(cfg, v))
  {
    var (t, due) := (Advanced(s, tp), UpperBound(s.queue, tp));
    EarlyFlushable(cfg, s, tp, i, v);
    AdvancedKeeps(cfg, s, tp, t);
    var p := PoppedAll(cfg, t);
    LeftIsLater(s, tp, t, p);
    FlushedElsewhere(cfg, t, s.queue[i..], v, p, r);
    EarlyQueue(cfg, p.timers, s.queue, i, due);
  }

  lemma {:induction false} LateQueue(cfg: Config, s: Buffer, tp: Time, r: Buffer)
    requires Invariant(cfg, s) && r == Triggered(cfg, s, tp)
    ensures Late(r.queue, tp)
  {
    UpperBoundOrdered(s.queue, tp);
    var t := Advanced(s, tp);
    assert Late(t.queue, tp);
    if FlushDue(cfg, s, tp) {
      LateFlushed(cfg, t, r);
    }
  }

  ghost predicate Late(q: seq<Scheduled>, tp: Time) {
    forall i :: 0 <= i < |q| ==> q[i].deadline > tp
  }

  lemma {:induction false} LateFlushed(cfg: Config, t: Buffer, r: Buffer)
    requires Linked(t) && Ordered(t.queue) && Late(t.queue, t.now) && r == FlushedAll(cfg, t)
    ensures Late(r.queue, t.now)
  {
    var p := PoppedAll(cfg, t);
    if p.timers != [] {
      LateScheduling(t.queue, Scheduled(p.timers[0].timer.expiry, cfg.self), t.now);
    }
  }

  lemma {:induction false} LateScheduling(q: seq<Scheduled>, e: Scheduled, tp: Time)
    requires Ordered(q) && Late(q, tp) && e.deadline > tp
    ensures Late(Scheduling(Cancelled(q, e.scope), e), tp)
  {
    OthersOrdered(q, e.scope);
    var c := Cancelled(q, e.scope);
    var r := Scheduling(c, e);
    forall i | 0 <= i < |r| ensures r[i].deadline > tp {
      SplicedAt(c, UpperBound(c, e.deadline), e, i);
      assert r[i] == e || r[i] in c;
    }
  }

  ghost predicate Flushable(cfg: Config, s: Buffer) {
    && Linked(s) && Sorted(s.timers) && Fits(cfg, s) && Books(cfg, s)
    && cfg.self != 0 && Ordered(s.queue) && Pending(s.queue, cfg.self) == []
  }

  lemma {:induction false} FrontDroppedIs(cfg: Config, s: Buffer)
    requires Linked(s) && s.slots != []
    ensures var k := FindTimer(s.timers, s.slots[0].packet.id);
            && k < |s.timers| && s.slots[0].packet.length <= s.storedBytes
            && FrontDropped(cfg, s) == s.(slots := s.slots[1..],
                                          timers := Without(s.timers, k),
                                          storedBytes := s.storedBytes - s.slots[0].packet.length,
                                          counters := OnRemove(cfg.kind, s.counters, s.slots[0].packet.id),
                                          log := s.log + [Gone(s.slots[0].packet.id, HeadDropped)])
  {
    FrontHasTimer(s);
    BytesWithout(s.slots, 0);
    assert Without(s.slots, 0) == s.slots[1..];
  }
}
