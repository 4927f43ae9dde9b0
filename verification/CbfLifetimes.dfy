/**
 * Lifetimes over whole runs: however often a timer is restarted, what is left of a packet's lifetime is
 * what it arrived with minus the time since.
 */
module CbfLifetimes {
  import opened Sequences
  import opened Runtime
  import opened CbfCounter
  import opened CbfModel
  import opened CbfProofs
  import opened CbfRuns
  import opened CbfItems
  import opened CbfEffects

  /** The lifetime of a packet at its latest insertion. */
  function LifetimeAt(log: seq<Event>, id: Identifier): nat {
    if log == [] then 0
    else
      var e := log[|log| - 1];
      if e.Stored? && e.id == id then e.lifetime else LifetimeAt(log[..|log| - 1], id)
  }

  /** Writing a lifetime back into a packet costs nothing. */
  ghost predicate Lossless(cfg: Config) {
    forall d :: cfg.recode(d) == d
  }

  /** It may cost something, but a packet never gains by it. */
  ghost predicate Lossy(cfg: Config) {
    forall d :: cfg.recode(d) <= d
  }

  /** The lifetime in the packet fits its age at the start of its timer. */
  ghost predicate Fitting(cfg: Config, log: seq<Event>, now: Time, x: Item) {
    var (born, start) := (StoredAt(log, x.packet.id), x.timer.start);
    && born <= start <= now
    && (Lossless(cfg) ==> x.packet.lifetime == Left(LifetimeAt(log, x.packet.id), born, start))
    && (Lossy(cfg) ==> x.packet.lifetime <= Left(LifetimeAt(log, x.packet.id), born, start))
  }

  ghost predicate AllFitting(cfg: Config, log: seq<Event>, now: Time, items: seq<Item>) {
    forall i :: 0 <= i < |items| ==> Fitting(cfg, log, now, items[i])
  }

  // ---------------------------------------------------------------- time passes

  lemma {:induction false} LeftTwice(lifetime: nat, a: Time, b: Time, c: Time)
    requires a <= b <= c
    ensures Left(Left(lifetime, a, b), b, c) == Left(lifetime, a, c)
  {
  }

  lemma {:induction false} LeftLess(x: nat, y: nat, a: Time, b: Time)
    requires x <= y
    ensures Left(x, a, b) <= Left(y, a, b)
  {
  }

  lemma {:induction false} ChargeFits(cfg: Config, log: seq<Event>, now: Time, x: Item, t: Timer, y: Item)
    requires Fitting(cfg, log, now, x) && t.start == now && y == Item(Charge(cfg, x, now), t)
    ensures Fitting(cfg, log, now, y)
  {
    var (l, born, start) := (LifetimeAt(log, x.packet.id), StoredAt(log, x.packet.id), x.timer.start);
    LeftTwice(l, born, start, now);
    if Lossy(cfg) {
      LeftLess(x.packet.lifetime, Left(l, born, start), start, now);
    }
  }

  lemma {:induction false} LaterFits(cfg: Config, log: seq<Event>, now: Time, later: Time, items: seq<Item>)
    requires AllFitting(cfg, log, now, items) && now <= later
    ensures AllFitting(cfg, log, later, items)
  {
  }

  // ---------------------------------------------------------------- which items remain

  lemma {:induction false} ExceptFits(cfg: Config, log: seq<Event>, now: Time, items: seq<Item>, id: Identifier)
    requires AllFitting(cfg, log, now, items)
    ensures AllFitting(cfg, log, now, Except(items, id))
  {
    if items != [] {
      ExceptFits(cfg, log, now, items[1..], id);
    }
  }

  lemma {:induction false} UnexpiredFits(cfg: Config, log: seq<Event>, now: Time, items: seq<Item>, t: Time)
    requires AllFitting(cfg, log, now, items)
    ensures AllFitting(cfg, log, now, Unexpired(items, t))
  {
    if items != [] {
      UnexpiredFits(cfg, log, now, items[1..], t);
    }
  }

  lemma {:induction false} RoomFits(
    cfg: Config, log: seq<Event>, now: Time, items: seq<Item>, incoming: nat, capacity: nat)
    requires AllFitting(cfg, log, now, items)
    ensures AllFitting(cfg, log, now, Room(items, incoming, capacity))
    decreases |items|
  {
    if items != [] {
      RoomFits(cfg, log, now, items[1..], incoming, capacity);
    }
  }

  lemma {:induction false} RestartFits(
    cfg: Config, log: seq<Event>, now: Time, items: seq<Item>, id: Identifier, timeout: Duration)
    requires AllFitting(cfg, log, now, items)
    ensures AllFitting(cfg, log, now, Restart(cfg, items, id, now, timeout))
  {
    var r := Restart(cfg, items, id, now, timeout);
    forall i | 0 <= i < |r| ensures Fitting(cfg, log, now, r[i]) {
      if items[i].packet.id == id {
        ChargeFits(cfg, log, now, items[i], r[i].timer, r[i]);
      }
    }
  }

  // ---------------------------------------------------------------- what the history says of arrivals

  /** Both histories know of the same latest insertions, except for one identifier. */
  ghost predicate SameArrivals(a: seq<Event>, b: seq<Event>, but: Option<Identifier>) {
    forall id :: Some(id) != but ==> StoredAt(a, id) == StoredAt(b, id) && LifetimeAt(a, id) == LifetimeAt(b, id)
  }

  lemma {:induction false} AppendArrival(log: seq<Event>, e: Event)
    ensures SameArrivals(log, log + [e], if e.Stored? then Some(e.id) else None)
    ensures e.Stored? ==> StoredAt(log + [e], e.id) == e.at && LifetimeAt(log + [e], e.id) == e.lifetime
  {
    TakeInit(log, e);
  }

  lemma {:induction false} ArrivalsFrame(
    cfg: Config, a: seq<Event>, b: seq<Event>, but: Option<Identifier>, now: Time, items: seq<Item>)
    requires AllFitting(cfg, a, now, items) && SameArrivals(a, b, but)
    requires forall i :: 0 <= i < |items| ==> Some(items[i].packet.id) != but
    ensures AllFitting(cfg, b, now, items)
  {
    forall i | 0 <= i < |items| ensures Fitting(cfg, b, now, items[i]) {
      assert Fitting(cfg, a, now, items[i]);
      assert StoredAt(a, items[i].packet.id) == StoredAt(b, items[i].packet.id);
    }
  }

  lemma {:induction false} UnlinkedArrivals(cfg: Config, s: Buffer, k: nat, fate: Fate)
    requires Linked(s) && k < |s.timers|
    ensures SameArrivals(s.log, Unlinked(cfg, s, k, fate).log, None)
  {
    AppendArrival(s.log, Gone(s.timers[k].id, fate));
  }

  lemma {:induction false} ChargedArrivals(cfg: Config, s: Buffer, k: nat, c: Buffer)
    requires Linked(s) && k < |s.timers| && c == Charged(cfg, s, k).0
    ensures SameArrivals(s.log, c.log, None)
  {
    AppendArrival(s.log, Reduced(s.timers[k].id, s.now - s.timers[k].timer.start, s.now));
  }

  lemma {:induction false} FetchedArrivals(cfg: Config, s: Buffer, id: Identifier, r: Buffer)
    requires Linked(s) && r == FetchedById(cfg, s, id).0
    ensures SameArrivals(s.log, r.log, None)
  {
    var k := FindTimer(s.timers, id);
    if k < |s.timers| {
      var c := Charged(cfg, s, k).0;
      ChargedLinked(cfg, s, k);
      ChargedArrivals(cfg, s, k, c);
      UnlinkedArrivals(cfg, c, k, Fetched);
    }
  }

  lemma {:induction false} RemovedArrivals(cfg: Config, s: Buffer, id: Identifier, r: Buffer)
    requires Linked(s) && r == RemovedById(cfg, s, id)
    ensures SameArrivals(s.log, r.log, None)
  {
    var k := FindTimer(s.timers, id);
    if k < |s.timers| {
      UnlinkedArrivals(cfg, s, k, Removed);
    }
  }

  lemma {:induction false} UpdatedArrivals(cfg: Config, s: Buffer, id: Identifier, timeout: Duration, r: Buffer)
    requires Linked(s) && r == Updated(cfg, s, id, timeout)
    ensures SameArrivals(s.log, r.log, None)
  {
    var k := FindTimer(s.timers, id);
    if k < |s.timers| {
      var c := Charged(cfg, s, k).0;
      ChargedArrivals(cfg, s, k, c);
      AppendArrival(c.log, Incremented(id));
    }
  }

  lemma {:induction false} HeadDropArrivals(cfg: Config, s: Buffer, incoming: nat, r: Buffer)
    requires Linked(s) && r == HeadDrop(cfg, s, incoming)
    ensures SameArrivals(s.log, r.log, None)
    decreases |s.slots|
  {
    if s.storedBytes + incoming > cfg.capacity && s.slots != [] {
      var d := FrontDropped(cfg, s);
      FrontHasTimer(s);
      AppendArrival(s.log, Gone(s.timers[FindTimer(s.timers, s.slots[0].packet.id)].id, HeadDropped));
      HeadDropArrivals(cfg, d, incoming, r);
    }
  }

  lemma {:induction false} ThreeEvents(log: seq<Event>, a: Event, b: seq<Event>, c: Event, all: seq<Event>)
    requires !a.Stored? && !c.Stored? && (b == [] || (|b| == 1 && !b[0].Stored?)) && all == log + [a] + b + [c]
    ensures SameArrivals(log, all, None)
  {
    AppendArrival(log, a);
    if b != [] {
      assert b == [b[0]];
      AppendArrival(log + [a], b[0]);
    } else {
      AddNothing(log + [a]);
    }
    AppendArrival(log + [a] + b, c);
  }

  lemma {:induction false} PoppedArrivals(cfg: Config, s: Buffer, r: Buffer)
    requires Linked(s) && s.timers != [] && r == Popped(cfg, s)
    ensures SameArrivals(s.log, r.log, None)
  {
    EntryHasSlot(s, 0);
    var (e, p) := (s.timers[0], FindSlot(s.slots, s.timers[0].node));
    var reduced := ReduceLifetime(cfg, s.slots[p].packet, s.now - e.timer.start);
    PoppedLog(cfg, s, p, reduced, r);
    var b := if reduced.1 > 0 then [Passed(e.id, e.timer.expiry, s.now, reduced.0)] else [];
    ThreeEvents(s.log, Reduced(e.id, s.now - e.timer.start, s.now), b, Gone(e.id, Flushed), r.log);
  }

  lemma {:induction false} PoppedAllArrivals(cfg: Config, s: Buffer, r: Buffer)
    requires Linked(s) && r == PoppedAll(cfg, s)
    ensures SameArrivals(s.log, r.log, None)
    decreases |s.timers|
  {
    if s.timers != [] && s.timers[0].timer.expiry <= s.now {
      var p := Popped(cfg, s);
      PoppedArrivals(cfg, s, p);
      PoppedAllArrivals(cfg, p, r);
    }
  }

  lemma {:induction false} FlushedArrivals(cfg: Config, s: Buffer, r: Buffer)
    requires Linked(s) && r == FlushedAll(cfg, s)
    ensures SameArrivals(s.log, r.log, None)
  {
    PoppedAllArrivals(cfg, s, PoppedAll(cfg, s));
  }

  // ---------------------------------------------------------------- steps

  lemma {:induction false} QuietArrivals(cfg: Config, s: Buffer, op: Op, r: Buffer)
    requires Invariant(cfg, s) && !op.Add? && r == Step(cfg, s, op)
    ensures SameArrivals(s.log, r.log, None)
  {
    match op
    case Remove(id) => RemovedArrivals(cfg, s, id, r);
    case Update(id, timeout) => UpdatedArrivals(cfg, s, id, timeout, r);
    case Fetch(id) => FetchedArrivals(cfg, s, id, r);
    case Trigger(tp) =>
      if Flushes(cfg, s, op) { FlushedArrivals(cfg, Advanced(s, tp), r); }
    case RunDue =>
      if Flushes(cfg, s, op) { FlushedArrivals(cfg, s.(queue := s.queue[1..]), r); }
    case Advance(_) =>
    case Elsewhere(_, _) =>
  }

  lemma {:induction false} NextFits(
    cfg: Config, log: seq<Event>, now: Time, items: seq<Item>, op: Op, flush: bool, later: Time)
    requires AllFitting(cfg, log, now, items) && !op.Add? && later == Clock(now, op)
    ensures AllFitting(cfg, log, later, Next(cfg, items, now, op, flush))
  {
    match op
    case Remove(id) => ExceptFits(cfg, log, now, items, id);
    case Update(id, timeout) => RestartFits(cfg, log, now, items, id, timeout);
    case Fetch(id) => ExceptFits(cfg, log, now, items, id);
    case Trigger(tp) =>
      UnexpiredFits(cfg, log, now, items, tp);
      LaterFits(cfg, log, now, later, Next(cfg, items, now, op, flush));
    case RunDue => UnexpiredFits(cfg, log, now, items, now);
    case Advance(_) => LaterFits(cfg, log, now, later, items);
    case Elsewhere(_, _) =>
  }

  lemma {:induction false} EnlistedFits(cfg: Config, d: Buffer, p: Packet, timeout: Duration, i: Buffer)
    requires Linked(d) && AllFitting(cfg, d.log, d.now, Items(d)) && i == Enlisted(cfg, d, p, timeout)
    ensures AllFitting(cfg, i.log, d.now, Items(i))
  {
    if FindTimer(d.timers, p.id) == |d.timers| {
      InsertedItems(cfg, d, p, timeout, i);
      NoItem(d, p.id);
      AppendArrival(d.log, Stored(p.id, d.now, p.lifetime));
      ArrivalsFrame(cfg, d.log, i.log, Some(p.id), d.now, Items(d));
    } else {
      assert Items(i) == Items(d);
    }
  }

  lemma {:induction false} AddedFits(cfg: Config, s: Buffer, p: Packet, timeout: Duration, r: Buffer)
    requires Linked(s) && AllFitting(cfg, s.log, s.now, Items(s)) && r == Added(cfg, s, p, timeout)
    ensures AllFitting(cfg, r.log, s.now, Items(r))
  {
    if timeout > 0 {
      var d := HeadDrop(cfg, s, p.length);
      HeadDropItems(cfg, s, p.length, d);
      RoomFits(cfg, s.log, s.now, Items(s), p.length, cfg.capacity);
      HeadDropArrivals(cfg, s, p.length, d);
      ArrivalsFrame(cfg, s.log, d.log, None, s.now, Items(d));
      var i := Enlisted(cfg, d, p, timeout);
      EnlistedFits(cfg, d, p, timeout, i);
      AddedFrom(cfg, s, p, timeout, d, i, r);
      SameItems(i, r);
    }
  }

  lemma {:induction false} StepFits(cfg: Config, s: Buffer, op: Op, r: Buffer)
    requires Invariant(cfg, s) && AllFitting(cfg, s.log, s.now, Items(s)) && r == Step(cfg, s, op)
    ensures AllFitting(cfg, r.log, r.now, Items(r))
  {
    StepRefinesList(cfg, s, op, r);
    if op.Add? {
      AddedFits(cfg, s, op.packet, op.timeout, r);
    } else {
      NextFits(cfg, s.log, s.now, Items(s), op, Flushes(cfg, s, op), r.now);
      QuietArrivals(cfg, s, op, r);
      ArrivalsFrame(cfg, s.log, r.log, None, r.now, Items(r));
    }
  }

  // ---------------------------------------------------------------- runs

  lemma {:induction false} RunFits(cfg: Config, s: Buffer, ops: seq<Op>, r: Buffer)
    requires Invariant(cfg, s) && AllFitting(cfg, s.log, s.now, Items(s)) && r == Run(cfg, s, ops)
    ensures AllFitting(cfg, r.log, r.now, Items(r))
    decreases |ops|
  {
    if ops != [] {
      var t := Step(cfg, s, ops[0]);
      StepInvariant(cfg, s, ops[0], t);
      StepFits(cfg, s, ops[0], t);
      RunFits(cfg, t, ops[1..], r);
    }
  }

  /**
   * After every run, if lifetimes are written back without loss: a stored packet has the lifetime it
   * arrived with minus all that was charged since, never below zero. With a loss it has at most that.
   */
  lemma {:induction false} RunChargesLifetimes(
    cfg: Config, now: Time, queue: seq<Scheduled>, ops: seq<Op>, r: Buffer, i: nat)
    requires Fresh(cfg, queue) && Invariant(cfg, Initial(now, queue)) && r == Run(cfg, Initial(now, queue), ops)
    requires i < |r.slots|
    ensures var p := r.slots[i].packet;
            var left := LifetimeAt(r.log, p.id) - SpentSince(r.log, p.id);
            && SpentSince(r.log, p.id) >= 0
            && (Lossless(cfg) ==> p.lifetime == if left > 0 then left else 0)
            && (Lossy(cfg) ==> p.lifetime <= if left > 0 then left else 0)
  {
    RunFits(cfg, Initial(now, queue), ops, r);
    var id := r.slots[i].packet.id;
    StoredMeansTimed(r, id);
    assert Book(cfg.kind, r.counters, r.log, id, Mark(TimerOf(r.timers, id)));
    assert Fitting(cfg, r.log, r.now, Items(r)[i]);
  }

  /** A timer's packet outlives its waiting time exactly if it is younger than the lifetime it arrived with. */
  lemma {:induction false} OutlivesIffYoung(
    cfg: Config, now: Time, queue: seq<Scheduled>, ops: seq<Op>, r: Buffer, k: nat)
    requires Fresh(cfg, queue) && Invariant(cfg, Initial(now, queue)) && r == Run(cfg, Initial(now, queue), ops)
    requires k < |r.timers| && Lossless(cfg)
    ensures var (e, age) := (r.timers[k], r.now - StoredAt(r.log, r.timers[k].id));
            && (Outlives(r.slots, e, r.now) <==> age < LifetimeAt(r.log, e.id))
            && (Outlives(r.slots, e, r.now) ==> Aged(cfg, r.slots, e, r.now).lifetime == LifetimeAt(r.log, e.id) - age)
  {
    RunFits(cfg, Initial(now, queue), ops, r);
    var e := r.timers[k];
    var p := FindSlot(r.slots, e.node);
    ItemOfTimer(r, k, p);
    assert Fitting(cfg, r.log, r.now, Items(r)[p]);
    LeftTwice(LifetimeAt(r.log, e.id), StoredAt(r.log, e.id), e.timer.start, r.now);
  }

  lemma {:induction false} TakenIffYoung(
    cfg: Config, s: Buffer, id: Identifier, k: nat, packet: Option<Packet>, age: int)
    requires Linked(s) && AllFitting(cfg, s.log, s.now, Items(s)) && Lossless(cfg)
    requires k == FindTimer(s.timers, id) < |s.timers| && packet == Taken(cfg, Items(s), id, s.now)
    requires age == s.now - StoredAt(s.log, id)
    ensures packet.Some? <==> age < LifetimeAt(s.log, id)
    ensures packet.Some? ==> packet.value.id == id && packet.value.lifetime == LifetimeAt(s.log, id) - age
  {
    var p := FindSlot(s.slots, s.timers[k].node);
    ItemOfTimer(s, k, p);
    TakenAt(cfg, Items(s), p, id, s.now);
    assert Fitting(cfg, s.log, s.now, Items(s)[p]);
    LeftTwice(LifetimeAt(s.log, id), StoredAt(s.log, id), s.timers[k].timer.start, s.now);
  }

  lemma {:induction false} FetchTakes(cfg: Config, s: Buffer, id: Identifier, packet: Option<Packet>)
    requires Linked(s) && packet == FetchedById(cfg, s, id).1
    ensures packet == Taken(cfg, Items(s), id, s.now)
  {
    FetchedItems(cfg, s, id, FetchedById(cfg, s, id).0, packet);
  }

  lemma {:induction false} NothingTaken(cfg: Config, s: Buffer, id: Identifier)
    requires Linked(s) && FindTimer(s.timers, id) == |s.timers|
    ensures Taken(cfg, Items(s), id, s.now) == None
  {
    NoItem(s, id);
    TakenNone(cfg, Items(s), id, s.now);
  }

  /** A stored packet is handed out exactly if it is younger than the lifetime it arrived with. */
  ghost predicate HandedOutYoung(s: Buffer, id: Identifier, packet: Option<Packet>) {
    var age := s.now - StoredAt(s.log, id);
    && (packet.Some? <==> TimerOf(s.timers, id).Some? && age < LifetimeAt(s.log, id))
    && (packet.Some? ==> packet.value.id == id && packet.value.lifetime == LifetimeAt(s.log, id) - age)
  }

  lemma {:induction false} TakenYoung(cfg: Config, s: Buffer, id: Identifier, packet: Option<Packet>)
    requires Linked(s) && AllFitting(cfg, s.log, s.now, Items(s)) && Lossless(cfg)
    requires packet == Taken(cfg, Items(s), id, s.now)
    ensures HandedOutYoung(s, id, packet)
  {
    var k := FindTimer(s.timers, id);
    if k < |s.timers| {
      TakenIffYoung(cfg, s, id, k, packet, s.now - StoredAt(s.log, id));
    } else {
      NothingTaken(cfg, s, id);
    }
  }

  /**
   * After every run, fetching yields a packet if and only if it is stored and younger than the lifetime
   * it arrived with, however often its timer was restarted; it is then what is left of that lifetime.
   */
  lemma {:induction false} FetchIffYoung(
    cfg: Config, now: Time, queue: seq<Scheduled>, ops: seq<Op>, r: Buffer, id: Identifier, packet: Option<Packet>)
    requires Fresh(cfg, queue) && Invariant(cfg, Initial(now, queue)) && r == Run(cfg, Initial(now, queue), ops)
    requires Lossless(cfg) && packet == FetchedById(cfg, r, id).1
    ensures HandedOutYoung(r, id, packet)
  {
    RunFits(cfg, Initial(now, queue), ops, r);
    FetchTakes(cfg, r, id, packet);
    TakenYoung(cfg, r, id, packet);
  }
}
