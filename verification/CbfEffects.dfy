/**
 * What adding and flushing do to the buffer, said without following their loops.
 */
module CbfEffects {
  import opened Sequences
  import opened Runtime
  import opened CbfCounter
  import opened CbfModel
  import opened CbfProofs
  import opened CbfRuns

  // ---------------------------------------------------------------- flush

  function PacketAt(slots: seq<Slot>, node: nat): Option<Packet> {
    var k := FindSlot(slots, node);
    if k < |slots| then Some(slots[k].packet) else None
  }

  /** The packet of a timer outlives the time it has been waiting. */
  predicate Outlives(slots: seq<Slot>, e: Entry, now: Time) {
    var p := PacketAt(slots, e.node);
    p.Some? && p.value.lifetime > if now > e.timer.start then now - e.timer.start else 0
  }

  /** The packet of a timer, with the lifetime that is left of it written back. */
  function Aged(cfg: Config, slots: seq<Slot>, e: Entry, now: Time): Packet
    requires Outlives(slots, e, now)
  {
    var p := PacketAt(slots, e.node).value;
    if now > e.timer.start then p.(lifetime := cfg.recode(p.lifetime - (now - e.timer.start))) else p
  }

  function Survivor(cfg: Config, slots: seq<Slot>, e: Entry, now: Time): seq<Packet> {
    if Outlives(slots, e, now) then [Aged(cfg, slots, e, now)] else []
  }

  /** The packets that outlive the waiting time of their timers, in the order of the timers. */
  function Survivors(cfg: Config, slots: seq<Slot>, timers: seq<Entry>, now: Time): seq<Packet> {
    if timers == [] then [] else Survivor(cfg, slots, timers[0], now) + Survivors(cfg, slots, timers[1..], now)
  }

  /** The packets given to the timer callback so far. */
  function PassedOn(log: seq<Event>): seq<Packet> {
    if log == [] then []
    else
      var e := log[|log| - 1];
      PassedOn(log[..|log| - 1]) + if e.Passed? then [e.packet] else []
  }

  lemma {:induction false} PassedAppend(log: seq<Event>, e: Event)
    ensures PassedOn(log + [e]) == PassedOn(log) + if e.Passed? then [e.packet] else []
  {
    TakeInit(log, e);
  }

  lemma {:induction false} PacketAtOther(slots: seq<Slot>, p: nat, x: Slot, node: nat)
    requires p < |slots| && x.node == slots[p].node != node
    ensures PacketAt(Without(slots[p := x], p), node) == PacketAt(slots, node)
  {
    var u := slots[p := x];
    var w := Without(u, p);
    var k := FindSlot(slots, node);
    if k < |slots| {
      var j := if k < p then k else k - 1;
      assert w[j] == slots[k];
      assert forall i :: 0 <= i < j ==> w[i] == if i < p then slots[i] else slots[i + 1];
      assert FindSlot(w, node) == j;
    } else {
      assert forall i :: 0 <= i < |w| ==> w[i] == if i < p then slots[i] else slots[i + 1];
    }
  }

  lemma {:induction false} SurvivorsFrame(cfg: Config, a: seq<Slot>, b: seq<Slot>, timers: seq<Entry>, now: Time)
    requires forall i :: 0 <= i < |timers| ==> PacketAt(a, timers[i].node) == PacketAt(b, timers[i].node)
    ensures Survivors(cfg, a, timers, now) == Survivors(cfg, b, timers, now)
  {
    if timers != [] {
      SurvivorsFrame(cfg, a, b, timers[1..], now);
    }
  }

  lemma {:induction false} ChargedPosition(slots: seq<Slot>, p: nat, x: Slot, node: nat)
    requires p < |slots| && p == FindSlot(slots, node) && x.node == node
    ensures FindSlot(slots[p := x], node) == p
  {
    var u := slots[p := x];
    assert u[p].node == node;
    assert forall i :: 0 <= i < p ==> u[i] == slots[i];
  }

  /** The list after popping the earliest timer. */
  lemma {:induction false} PoppedSlots(cfg: Config, s: Buffer, p: nat, x: Slot, r: Buffer)
    requires Linked(s) && s.timers != [] && r == Popped(cfg, s)
    requires p == FindSlot(s.slots, s.timers[0].node) < |s.slots|
    requires x == s.slots[p].(packet := ReduceLifetime(cfg, s.slots[p].packet, s.now - s.timers[0].timer.start).0)
    ensures r.slots == Without(s.slots[p := x], p)
  {
    ChargedPosition(s.slots, p, x, s.timers[0].node);
  }

  /** The history after popping the earliest timer. */
  lemma {:induction false} PoppedLog(cfg: Config, s: Buffer, p: nat, reduced: (Packet, nat), r: Buffer)
    requires Linked(s) && s.timers != [] && r == Popped(cfg, s)
    requires p == FindSlot(s.slots, s.timers[0].node) < |s.slots|
    requires reduced == ReduceLifetime(cfg, s.slots[p].packet, s.now - s.timers[0].timer.start)
    ensures var e := s.timers[0];
            r.log == s.log + [Reduced(e.id, s.now - e.timer.start, s.now)]
                     + (if reduced.1 > 0 then [Passed(e.id, e.timer.expiry, s.now, reduced.0)] else [])
                     + [Gone(e.id, Flushed)]
  {
    var e := s.timers[0];
    ChargedPosition(s.slots, p, s.slots[p].(packet := reduced.0), e.node);
  }

  lemma {:induction false} PassedThree(log: seq<Event>, a: Event, b: seq<Event>, c: Event, all: seq<Event>)
    requires !a.Passed? && !c.Passed? && (b == [] || (|b| == 1 && b[0].Passed?)) && all == log + [a] + b + [c]
    ensures PassedOn(all) == PassedOn(log) + if b == [] then [] else [b[0].packet]
  {
    PassedAppend(log, a);
    if b != [] {
      assert b == [b[0]];
      PassedAppend(log + [a], b[0]);
    } else {
      assert log + [a] + b == log + [a];
    }
    PassedAppend(log + [a] + b, c);
  }

  lemma {:induction false} SurvivorIs(cfg: Config, s: Buffer, e: Entry, p: nat, reduced: (Packet, nat))
    requires p == FindSlot(s.slots, e.node) < |s.slots|
    requires reduced == ReduceLifetime(cfg, s.slots[p].packet, s.now - e.timer.start)
    ensures Survivor(cfg, s.slots, e, s.now) == if reduced.1 > 0 then [reduced.0] else []
  {
  }

  lemma {:induction false} PoppedPasses(cfg: Config, s: Buffer, p: nat, reduced: (Packet, nat), r: Buffer)
    requires Linked(s) && s.timers != [] && r == Popped(cfg, s)
    requires p == FindSlot(s.slots, s.timers[0].node) < |s.slots|
    requires reduced == ReduceLifetime(cfg, s.slots[p].packet, s.now - s.timers[0].timer.start)
    ensures PassedOn(r.log) == PassedOn(s.log) + if reduced.1 > 0 then [reduced.0] else []
  {
    var e := s.timers[0];
    var b := if reduced.1 > 0 then [Passed(e.id, e.timer.expiry, s.now, reduced.0)] else [];
    PoppedLog(cfg, s, p, reduced, r);
    PassedThree(s.log, Reduced(e.id, s.now - e.timer.start, s.now), b, Gone(e.id, Flushed), r.log);
  }

  /** Popping the earliest timer hands over its packet if it outlives its waiting time. */
  lemma {:induction false} PoppedHandsOver(cfg: Config, s: Buffer, r: Buffer)
    requires Linked(s) && s.timers != [] && r == Popped(cfg, s)
    ensures PassedOn(r.log) == PassedOn(s.log) + Survivor(cfg, s.slots, s.timers[0], s.now)
  {
    var e := s.timers[0];
    EntryHasSlot(s, 0);
    var p := FindSlot(s.slots, e.node);
    var reduced := ReduceLifetime(cfg, s.slots[p].packet, s.now - e.timer.start);
    PoppedPasses(cfg, s, p, reduced, r);
    SurvivorIs(cfg, s, e, p, reduced);
  }

  lemma {:induction false} PoppedFrame(cfg: Config, s: Buffer, r: Buffer, timers: seq<Entry>)
    requires Linked(s) && s.timers != [] && r == Popped(cfg, s)
    requires forall i :: 0 <= i < |timers| ==> timers[i].node != s.timers[0].node
    ensures Survivors(cfg, r.slots, timers, s.now) == Survivors(cfg, s.slots, timers, s.now)
  {
    EntryHasSlot(s, 0);
    var p := FindSlot(s.slots, s.timers[0].node);
    var x := s.slots[p].(packet := ReduceLifetime(cfg, s.slots[p].packet, s.now - s.timers[0].timer.start).0);
    PoppedSlots(cfg, s, p, x, r);
    forall i | 0 <= i < |timers| ensures PacketAt(r.slots, timers[i].node) == PacketAt(s.slots, timers[i].node) {
      PacketAtOther(s.slots, p, x, timers[i].node);
    }
    SurvivorsFrame(cfg, r.slots, s.slots, timers, s.now);
  }

  /** The expired packets with lifetime left, earliest expiry first. */
  function HandedOver(cfg: Config, s: Buffer): seq<Packet> {
    Survivors(cfg, s.slots, s.timers[..Expired(s.timers, s.now)], s.now)
  }

  lemma {:induction false} HandedOverStep(cfg: Config, s: Buffer, p: Buffer, rest: seq<Entry>)
    requires Linked(s) && s.timers != [] && s.timers[0].timer.expiry <= s.now && p == Popped(cfg, s)
    requires rest == s.timers[1..][..Expired(s.timers[1..], s.now)]
    ensures HandedOver(cfg, s) == Survivor(cfg, s.slots, s.timers[0], s.now) + HandedOver(cfg, p)
  {
    ExpiredHead(s, rest);
    PoppedFrame(cfg, s, p, rest);
    SurvivorsCons(cfg, s.slots, s.timers[0], rest, s.now);
  }

  lemma {:induction false} NothingHandedOver(cfg: Config, s: Buffer)
    requires s.timers == [] || s.timers[0].timer.expiry > s.now
    ensures HandedOver(cfg, s) == []
  {
    assert s.timers[..0] == [];
  }

  lemma {:induction false} PoppedAllHandsOver(cfg: Config, s: Buffer, r: Buffer)
    requires Linked(s) && r == PoppedAll(cfg, s)
    ensures PassedOn(r.log) == PassedOn(s.log) + HandedOver(cfg, s)
    decreases |s.timers|
  {
    if s.timers != [] && s.timers[0].timer.expiry <= s.now {
      var p := Popped(cfg, s);
      PoppedHandsOver(cfg, s, p);
      PoppedAllHandsOver(cfg, p, r);
      HandedOverStep(cfg, s, p, s.timers[1..][..Expired(s.timers[1..], s.now)]);
      Assoc(PassedOn(s.log), Survivor(cfg, s.slots, s.timers[0], s.now), HandedOver(cfg, p));
    } else {
      NothingHandedOver(cfg, s);
      AddNothing(PassedOn(s.log));
    }
  }

  /**
   * A flush gives to the callback exactly the expired packets with lifetime left, charged for their
   * waiting time, earliest expiry first.
   */
  lemma {:induction false} FlushHandsOver(cfg: Config, s: Buffer)
    requires Linked(s)
    ensures PassedOn(FlushedAll(cfg, s).log)
         == PassedOn(s.log) + Survivors(cfg, s.slots, s.timers[..Expired(s.timers, s.now)], s.now)
  {
    PoppedAllHandsOver(cfg, s, PoppedAll(cfg, s));
  }

  lemma {:induction false} SurvivorsCons(cfg: Config, slots: seq<Slot>, e: Entry, rest: seq<Entry>, now: Time)
    ensures Survivors(cfg, slots, [e] + rest, now) == Survivor(cfg, slots, e, now) + Survivors(cfg, slots, rest, now)
  {
    assert ([e] + rest)[1..] == rest;
  }

  lemma {:induction false} ExpiredHead(s: Buffer, rest: seq<Entry>)
    requires Linked(s) && s.timers != [] && s.timers[0].timer.expiry <= s.now
    requires rest == s.timers[1..][..Expired(s.timers[1..], s.now)]
    ensures s.timers[..Expired(s.timers, s.now)] == [s.timers[0]] + rest
    ensures forall i :: 0 <= i < |rest| ==> rest[i].node != s.timers[0].node
  {
    forall i | 0 <= i < |rest| ensures rest[i].node != s.timers[0].node {
      assert TimerLinks(s.timers)[i + 1].node != TimerLinks(s.timers)[0].node;
    }
  }

  // ---------------------------------------------------------------- add

  /** Dropping j packets is the least that makes room for an incoming packet, if anything does. */
  ghost predicate Shortest(slots: seq<Slot>, j: nat, incoming: nat, capacity: nat) {
    && j <= |slots|
    && (j < |slots| ==> Bytes(slots[j..]) + incoming <= capacity)
    && (forall i :: 0 <= i < j ==> Bytes(slots[i..]) + incoming > capacity)
  }

  lemma {:induction false} ShortestCons(slots: seq<Slot>, j: nat, incoming: nat, capacity: nat)
    requires slots != [] && Bytes(slots) + incoming > capacity && Shortest(slots[1..], j, incoming, capacity)
    ensures Shortest(slots, j + 1, incoming, capacity) && slots[1..][j..] == slots[j + 1..]
  {
    forall i | 0 <= i < j + 1 ensures Bytes(slots[i..]) + incoming > capacity {
      if i > 0 {
        assert slots[1..][i - 1..] == slots[i..];
      } else {
        assert slots[0..] == slots;
      }
    }
  }

  /** What head drop leaves of the list. */
  function Kept(slots: seq<Slot>, incoming: nat, capacity: nat): seq<Slot> {
    if Bytes(slots) + incoming > capacity && slots != [] then Kept(slots[1..], incoming, capacity) else slots
  }

  lemma {:induction false} ShortestNone(slots: seq<Slot>, incoming: nat, capacity: nat)
    requires slots == [] || Bytes(slots) + incoming <= capacity
    ensures Shortest(slots, 0, incoming, capacity) && slots == slots[0..]
  {
    assert slots[0..] == slots;
  }

  lemma {:induction false} KeptIsShortest(slots: seq<Slot>, incoming: nat, capacity: nat) returns (j: nat)
    ensures Shortest(slots, j, incoming, capacity) && Kept(slots, incoming, capacity) == slots[j..]
    decreases |slots|
  {
    if Bytes(slots) + incoming > capacity && slots != [] {
      var k := KeptIsShortest(slots[1..], incoming, capacity);
      ShortestCons(slots, k, incoming, capacity);
      j := k + 1;
    } else {
      j := 0;
      ShortestNone(slots, incoming, capacity);
    }
  }

  lemma {:induction false} HeadDropStep(cfg: Config, s: Buffer, incoming: nat, d: Buffer)
    requires Linked(s) && s.slots != [] && s.storedBytes + incoming > cfg.capacity && d == FrontDropped(cfg, s)
    ensures HeadDrop(cfg, s, incoming) == HeadDrop(cfg, d, incoming)
  {
  }

  lemma {:induction false} HeadDropKept(cfg: Config, s: Buffer, incoming: nat, r: Buffer)
    requires Linked(s) && r == HeadDrop(cfg, s, incoming)
    ensures r.slots == Kept(s.slots, incoming, cfg.capacity)
    decreases |s.slots|
  {
    if s.storedBytes + incoming > cfg.capacity && s.slots != [] {
      var d := FrontDropped(cfg, s);
      FrontDroppedSlots(cfg, s);
      HeadDropStep(cfg, s, incoming, d);
      HeadDropKept(cfg, d, incoming, r);
    }
  }

  /** Head drop removes the shortest prefix of the list that makes room, or everything if none does. */
  lemma {:induction false} HeadDropIsShortest(cfg: Config, s: Buffer, incoming: nat, r: Buffer) returns (j: nat)
    requires Linked(s) && r == HeadDrop(cfg, s, incoming)
    ensures Shortest(s.slots, j, incoming, cfg.capacity) && r.slots == s.slots[j..]
  {
    HeadDropKept(cfg, s, incoming, r);
    j := KeptIsShortest(s.slots, incoming, cfg.capacity);
  }

  lemma {:induction false} FrontDroppedSlots(cfg: Config, s: Buffer)
    requires Linked(s) && s.slots != []
    ensures FrontDropped(cfg, s).slots == s.slots[1..]
  {
    FrontHasTimer(s);
    assert Without(s.slots, 0) == s.slots[1..];
  }

  /** Whatever is added with a positive timeout is buffered afterwards, and its timer runs. */
  lemma {:induction false} AddedIsBuffered(cfg: Config, s: Buffer, p: Packet, timeout: Duration, r: Buffer)
    requires Invariant(cfg, s) && timeout > 0 && r == Added(cfg, s, p, timeout)
    ensures TimerOf(r.timers, p.id).Some?
    ensures TimerOf(s.timers, p.id).None? ==> TimerOf(r.timers, p.id).value.start == s.now
    ensures TimerOf(s.timers, p.id).None? ==> TimerOf(r.timers, p.id).value.expiry == s.now + timeout
  {
    HeadDropKeeps(cfg, s, p.length);
    var d := HeadDrop(cfg, s, p.length);
    var i := Enlisted(cfg, d, p, timeout);
    assert r.timers == i.timers;
    BufferedAfter(cfg, s.timers, d, p, timeout, i);
  }

  lemma {:induction false} BufferedAfter(
    cfg: Config, before: seq<Entry>, d: Buffer, p: Packet, timeout: Duration, r: Buffer)
    requires Linked(d) && r == Enlisted(cfg, d, p, timeout)
    requires forall e :: e in d.timers ==> e in before
    ensures TimerOf(r.timers, p.id).Some?
    ensures TimerOf(before, p.id).None? ==> TimerOf(r.timers, p.id) == Some(Timer(d.now + timeout, d.now))
  {
    if FindTimer(d.timers, p.id) == |d.timers| {
      NewNode(d);
      TimerOfInsert(d.timers, FreshEntry(d, p, timeout), p.id);
    } else {
      assert d.timers[FindTimer(d.timers, p.id)] in before;
    }
  }

  // ---------------------------------------------------------------- the pending flush

  /** The pending flush of an owner, after the earliest timer has possibly become another one. */
  ghost function FlushAfter(pending: seq<Time>, s: Buffer, r: Buffer): seq<Time> {
    if r.timers != [] && First(r) != First(s) then [r.timers[0].timer.expiry] else pending
  }

  lemma {:induction false} RearmedFlush(cfg: Config, s: Buffer, r: Buffer, scope: Scope)
    requires cfg.self != 0 && Ordered(s.queue) && s.timers != [] && r == Rearmed(cfg, s)
    ensures Pending(r.queue, scope) == if scope == cfg.self then [s.timers[0].timer.expiry] else Pending(s.queue, scope)
  {
    Rescheduled(s.queue, Scheduled(s.timers[0].timer.expiry, cfg.self));
  }

  lemma {:induction false} UnlinkedFlush(cfg: Config, s: Buffer, k: nat, fate: Fate, r: Buffer, scope: Scope)
    requires Linked(s) && k < |s.timers| && cfg.self != 0 && Ordered(s.queue) && r == Unlinked(cfg, s, k, fate)
    ensures Pending(r.queue, scope)
         == if scope == cfg.self then FlushAfter(Pending(s.queue, scope), s, r) else Pending(s.queue, scope)
  {
    var d := Detached(cfg, s, k, fate);
    if k == 0 && d.timers != [] {
      RearmedFlush(cfg, d, r, scope);
      assert TimerLinks(s.timers)[0].node != TimerLinks(s.timers)[1].node;
    } else if k > 0 {
      assert d.timers[0] == s.timers[0];
    }
  }

  lemma {:induction false} AddedFlush(cfg: Config, s: Buffer, p: Packet, timeout: Duration, r: Buffer, scope: Scope)
    requires Invariant(cfg, s) && r == Added(cfg, s, p, timeout)
    ensures Pending(r.queue, scope)
         == if scope == cfg.self then FlushAfter(Pending(s.queue, scope), s, r) else Pending(s.queue, scope)
  {
    if timeout > 0 {
      HeadDropKeeps(cfg, s, p.length);
      var d := HeadDrop(cfg, s, p.length);
      var i := Enlisted(cfg, d, p, timeout);
      EnlistedKeeps(cfg, d, p, timeout, i);
      if First(i) != First(s) {
        RearmedFlush(cfg, i, r, scope);
      }
    }
  }

  /**
   * Adding, removing and fetching move the pending flush if and only if the earliest timer becomes another
   * one, and then to its expiry; an update never moves it. Callbacks of other owners stay.
   */
  lemma {:induction false} FlushFollowsEarliest(cfg: Config, s: Buffer, op: Op, r: Buffer, scope: Scope)
    requires Invariant(cfg, s) && (op.Add? || op.Remove? || op.Update? || op.Fetch?) && r == Step(cfg, s, op)
    ensures Pending(r.queue, scope)
         == if scope == cfg.self && !op.Update? then FlushAfter(Pending(s.queue, scope), s, r)
            else Pending(s.queue, scope)
  {
    match op
    case Add(packet, timeout) => AddedFlush(cfg, s, packet, timeout, r, scope);
    case Remove(id) => RemovedFlush(cfg, s, id, r, scope);
    case Fetch(id) => FetchedFlush(cfg, s, id, r, scope);
    case Update(id, timeout) => UpdatedInvariant(cfg, s, id, timeout, r);
  }

  lemma {:induction false} RemovedFlush(cfg: Config, s: Buffer, id: Identifier, r: Buffer, scope: Scope)
    requires Invariant(cfg, s) && r == RemovedById(cfg, s, id)
    ensures Pending(r.queue, scope)
         == if scope == cfg.self then FlushAfter(Pending(s.queue, scope), s, r) else Pending(s.queue, scope)
  {
    var k := FindTimer(s.timers, id);
    if k < |s.timers| {
      UnlinkedFlush(cfg, s, k, Removed, r, scope);
    }
  }

  lemma {:induction false} FetchedFlush(cfg: Config, s: Buffer, id: Identifier, r: Buffer, scope: Scope)
    requires Invariant(cfg, s) && r == FetchedById(cfg, s, id).0
    ensures Pending(r.queue, scope)
         == if scope == cfg.self then FlushAfter(Pending(s.queue, scope), s, r) else Pending(s.queue, scope)
  {
    var k := FindTimer(s.timers, id);
    if k < |s.timers| {
      ChargedLinked(cfg, s, k);
      UnlinkedFlush(cfg, Charged(cfg, s, k).0, k, Fetched, r, scope);
    }
  }
}
