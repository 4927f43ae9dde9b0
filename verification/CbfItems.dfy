/**
 * The contention buffer refines a plain list: packets in the order of their arrival, each with its own
 * timer. There are no list nodes, no timer relation, no byte count, and nothing is done in place.
 */
module CbfItems {
  import opened Sequences
  import opened Runtime
  import opened CbfCounter
  import opened CbfModel
  import opened CbfProofs
  import opened CbfRuns

  datatype Item = Item(packet: Packet, timer: Timer)

  // ---------------------------------------------------------------- the plain list

  ghost predicate Has(items: seq<Item>, id: Identifier) {
    exists i :: 0 <= i < |items| && items[i].packet.id == id
  }

  function Except(items: seq<Item>, id: Identifier): seq<Item> {
    if items == [] then []
    else (if items[0].packet.id == id then [] else [items[0]]) + Except(items[1..], id)
  }

  function Size(items: seq<Item>): nat {
    if items == [] then 0 else items[0].packet.length + Size(items[1..])
  }

  /** The oldest packets give way to an incoming one. */
  function Room(items: seq<Item>, incoming: nat, capacity: nat): seq<Item> {
    if items != [] && Size(items) + incoming > capacity then Room(items[1..], incoming, capacity) else items
  }

  function Unexpired(items: seq<Item>, now: Time): seq<Item> {
    if items == [] then []
    else (if items[0].timer.expiry > now then [items[0]] else []) + Unexpired(items[1..], now)
  }

  /** What is left of a packet's lifetime after it has waited since its timer was started. */
  function Left(lifetime: nat, start: Time, now: Time): nat {
    if now <= start then lifetime else if now - start < lifetime then lifetime - (now - start) else 0
  }

  /** The packet with that lifetime; writing it back may cost something. */
  function Charge(cfg: Config, x: Item, now: Time): Packet {
    var left := Left(x.packet.lifetime, x.timer.start, now);
    x.packet.(lifetime := if 0 < left < x.packet.lifetime then cfg.recode(left) else left)
  }

  function Restart(cfg: Config, items: seq<Item>, id: Identifier, now: Time, timeout: Duration): (r: seq<Item>)
    ensures |r| == |items|
    ensures forall i :: 0 <= i < |r| ==>
              r[i] == if items[i].packet.id == id then Item(Charge(cfg, items[i], now), Timer(now + timeout, now))
                      else items[i]
  {
    seq(|items|, i requires 0 <= i < |items| =>
      if items[i].packet.id == id then Item(Charge(cfg, items[i], now), Timer(now + timeout, now)) else items[i])
  }

  /** A packet is handed out, charged, if lifetime is left. */
  function Taken(cfg: Config, items: seq<Item>, id: Identifier, now: Time): Option<Packet> {
    if items == [] then None
    else if items[0].packet.id != id then Taken(cfg, items[1..], id, now)
    else if Left(items[0].packet.lifetime, items[0].timer.start, now) > 0 then Some(Charge(cfg, items[0], now))
    else None
  }

  /** A packet that is there already stays as it is. */
  ghost function Joined(items: seq<Item>, x: Item): seq<Item> {
    if Has(items, x.packet.id) then items else items + [x]
  }

  ghost function Arrived(items: seq<Item>, p: Packet, capacity: nat, now: Time, timeout: Duration): seq<Item> {
    if timeout <= 0 then items else Joined(Room(items, p.length, capacity), Item(p, Timer(now + timeout, now)))
  }

  /** `flush` says whether the pending flush runs in this step. */
  ghost function Next(cfg: Config, items: seq<Item>, now: Time, op: Op, flush: bool): seq<Item> {
    match op
    case Add(packet, timeout) => Arrived(items, packet, cfg.capacity, now, timeout)
    case Remove(id) => Except(items, id)
    case Update(id, timeout) => Restart(cfg, items, id, now, timeout)
    case Fetch(id) => Except(items, id)
    case Trigger(tp) => if flush then Unexpired(items, tp) else items
    case RunDue => if flush then Unexpired(items, now) else items
    case Advance(_) => items
    case Elsewhere(_, _) => items
  }

  // ---------------------------------------------------------------- what a buffer stands for

  function Given(t: Option<Timer>): Timer {
    if t.Some? then t.value else Timer(0, 0)
  }

  function ItemsOf(slots: seq<Slot>, timers: seq<Entry>): (r: seq<Item>)
    ensures |r| == |slots|
    ensures forall i :: 0 <= i < |r| ==>
              r[i] == Item(slots[i].packet, Given(TimerOf(timers, slots[i].packet.id)))
  {
    seq(|slots|, i requires 0 <= i < |slots| => Item(slots[i].packet, Given(TimerOf(timers, slots[i].packet.id))))
  }

  function Items(s: Buffer): seq<Item> {
    ItemsOf(s.slots, s.timers)
  }

  /** Only the item at p has this identifier. */
  ghost predicate OnlyAt(items: seq<Item>, p: nat, id: Identifier) {
    p < |items| && forall i :: 0 <= i < |items| ==> (items[i].packet.id == id <==> i == p)
  }

  lemma {:induction false} ExceptNone(items: seq<Item>, id: Identifier)
    requires forall i :: 0 <= i < |items| ==> items[i].packet.id != id
    ensures Except(items, id) == items
  {
    if items != [] {
      ExceptNone(items[1..], id);
    }
  }

  lemma {:induction false} ExceptAt(items: seq<Item>, p: nat, id: Identifier)
    requires OnlyAt(items, p, id)
    ensures Except(items, id) == Without(items, p)
    decreases |items|
  {
    if p == 0 {
      ExceptNone(items[1..], id);
    } else {
      ExceptAt(items[1..], p - 1, id);
      WithoutCons(items, p);
    }
  }

  lemma {:induction false} WithoutCons<T>(s: seq<T>, p: nat)
    requires 0 < p < |s|
    ensures Without(s, p) == [s[0]] + Without(s[1..], p - 1)
  {
  }

  lemma {:induction false} TakenAt(cfg: Config, items: seq<Item>, p: nat, id: Identifier, now: Time)
    requires OnlyAt(items, p, id)
    ensures Taken(cfg, items, id, now)
         == if Left(items[p].packet.lifetime, items[p].timer.start, now) > 0
            then Some(Charge(cfg, items[p], now)) else None
    decreases |items|
  {
    if p > 0 {
      TakenAt(cfg, items[1..], p - 1, id, now);
    }
  }

  lemma {:induction false} TakenNone(cfg: Config, items: seq<Item>, id: Identifier, now: Time)
    requires forall i :: 0 <= i < |items| ==> items[i].packet.id != id
    ensures Taken(cfg, items, id, now) == None
  {
    if items != [] {
      TakenNone(cfg, items[1..], id, now);
    }
  }

  /** The k-th timer and the slot of its packet make up one item. */
  lemma {:induction false} ItemOfTimer(s: Buffer, k: nat, p: nat)
    requires Linked(s) && k < |s.timers| && p == FindSlot(s.slots, s.timers[k].node)
    ensures OnlyAt(Items(s), p, s.timers[k].id)
    ensures Items(s)[p] == Item(s.slots[p].packet, s.timers[k].timer)
  {
    EntryHasSlot(s, k);
    FoundAt(s.timers, k);
    var links := SlotLinks(s.slots);
    forall i | 0 <= i < |s.slots| ensures Items(s)[i].packet.id == s.timers[k].id <==> i == p {
      assert i < p ==> links[i].id != links[p].id;
      assert p < i ==> links[p].id != links[i].id;
    }
  }

  lemma {:induction false} NoItem(s: Buffer, id: Identifier)
    requires Linked(s) && FindTimer(s.timers, id) == |s.timers|
    ensures forall i :: 0 <= i < |Items(s)| ==> Items(s)[i].packet.id != id
  {
    StoredMeansTimed(s, id);
  }

  // ---------------------------------------------------------------- removing and fetching

  lemma {:induction false} WithoutItems(slots: seq<Slot>, timers: seq<Entry>, k: nat, p: nat, i: nat)
    requires Unique(TimerLinks(timers)) && k < |timers| && OnlyAt(ItemsOf(slots, timers), p, timers[k].id)
    requires i < |slots| - 1
    ensures ItemsOf(Without(slots, p), Without(timers, k))[i] == Without(ItemsOf(slots, timers), p)[i]
  {
    WithoutAt(slots, p, i);
    WithoutAt(ItemsOf(slots, timers), p, i);
    TimerOfWithout(timers, k, Without(slots, p)[i].packet.id);
  }

  lemma {:induction false} DetachedItems(cfg: Config, s: Buffer, k: nat, fate: Fate, r: Buffer)
    requires Linked(s) && k < |s.timers| && r == Detached(cfg, s, k, fate)
    ensures Items(r) == Except(Items(s), s.timers[k].id)
  {
    EntryHasSlot(s, k);
    var p := FindSlot(s.slots, s.timers[k].node);
    ItemOfTimer(s, k, p);
    ExceptAt(Items(s), p, s.timers[k].id);
    assert r.slots == Without(s.slots, p) && r.timers == Without(s.timers, k);
    forall i | 0 <= i < |s.slots| - 1 ensures Items(r)[i] == Without(Items(s), p)[i] {
      WithoutItems(s.slots, s.timers, k, p, i);
    }
  }

  lemma {:induction false} ChargedItems(cfg: Config, s: Buffer, k: nat, p: nat, r: Buffer, left: nat)
    requires Linked(s) && k < |s.timers| && p == FindSlot(s.slots, s.timers[k].node) && (r, left) == Charged(cfg, s, k)
    ensures p < |s.slots| && r.timers == s.timers && r.now == s.now && r.queue == s.queue
    ensures Items(r) == Items(s)[p := Item(Charge(cfg, Items(s)[p], s.now), s.timers[k].timer)]
    ensures r.slots[p].packet == Charge(cfg, Items(s)[p], s.now)
    ensures left == Left(Items(s)[p].packet.lifetime, s.timers[k].timer.start, s.now)
  {
    EntryHasSlot(s, k);
    ItemOfTimer(s, k, p);
  }

  lemma {:induction false} ExceptCharged(items: seq<Item>, p: nat, x: Item, id: Identifier)
    requires OnlyAt(items, p, id) && x.packet.id == id
    ensures OnlyAt(items[p := x], p, id) && Except(items[p := x], id) == Except(items, id)
  {
    ExceptAt(items, p, id);
    ExceptAt(items[p := x], p, id);
  }

  lemma {:induction false} RemovedItems(cfg: Config, s: Buffer, id: Identifier, r: Buffer)
    requires Linked(s) && r == RemovedById(cfg, s, id)
    ensures Items(r) == Except(Items(s), id) && r.now == s.now
  {
    var k := FindTimer(s.timers, id);
    if k < |s.timers| {
      DetachedItems(cfg, s, k, Removed, Detached(cfg, s, k, Removed));
    } else {
      NoItem(s, id);
      ExceptNone(Items(s), id);
    }
  }

  lemma {:induction false} ChargedDetached(cfg: Config, s: Buffer, k: nat, c: Buffer, left: nat, fate: Fate, r: Buffer)
    requires Linked(s) && k < |s.timers| && (c, left) == Charged(cfg, s, k)
    requires Linked(c) && r.slots == Detached(cfg, c, k, fate).slots && r.timers == Detached(cfg, c, k, fate).timers
    ensures Items(r) == Except(Items(s), s.timers[k].id)
  {
    var p := FindSlot(s.slots, s.timers[k].node);
    ItemOfTimer(s, k, p);
    ChargedItems(cfg, s, k, p, c, left);
    ExceptCharged(Items(s), p, Items(c)[p], s.timers[k].id);
    DetachedItems(cfg, c, k, fate, Detached(cfg, c, k, fate));
  }

  /**
   * A fetched packet leaves the buffer; it is handed out if and only if lifetime is left, charged for
   * the time it has waited.
   */
  lemma {:induction false} FetchedItems(cfg: Config, s: Buffer, id: Identifier, r: Buffer, packet: Option<Packet>)
    requires Linked(s) && (r, packet) == FetchedById(cfg, s, id)
    ensures Items(r) == Except(Items(s), id) && r.now == s.now
    ensures packet == Taken(cfg, Items(s), id, s.now)
  {
    var k := FindTimer(s.timers, id);
    if k < |s.timers| {
      var p := FindSlot(s.slots, s.timers[k].node);
      var (c, left) := Charged(cfg, s, k);
      ChargedLinked(cfg, s, k);
      ItemOfTimer(s, k, p);
      ChargedItems(cfg, s, k, p, c, left);
      TakenAt(cfg, Items(s), p, id, s.now);
      ChargedDetached(cfg, s, k, c, left, Fetched, r);
    } else {
      NoItem(s, id);
      ExceptNone(Items(s), id);
      TakenNone(cfg, Items(s), id, s.now);
    }
  }

  // ---------------------------------------------------------------- updating

  lemma {:induction false} UpdatedItems(cfg: Config, s: Buffer, id: Identifier, timeout: Duration, r: Buffer)
    requires Linked(s) && r == Updated(cfg, s, id, timeout)
    ensures Items(r) == Restart(cfg, Items(s), id, s.now, timeout) && r.now == s.now
  {
    var k := FindTimer(s.timers, id);
    if k < |s.timers| {
      var p := FindSlot(s.slots, s.timers[k].node);
      var (c, left) := Charged(cfg, s, k);
      ItemOfTimer(s, k, p);
      ChargedItems(cfg, s, k, p, c, left);
      RestartedItems(s.slots, s.timers, k, p, c.slots, Timer(s.now + timeout, s.now), r.timers);
    } else {
      NoItem(s, id);
    }
  }

  lemma {:induction false} RestartedItems(
    slots: seq<Slot>, timers: seq<Entry>, k: nat, p: nat, charged: seq<Slot>, t: Timer, r: seq<Entry>)
    requires Unique(TimerLinks(timers)) && k < |timers| && OnlyAt(ItemsOf(slots, timers), p, timers[k].id)
    requires |charged| == |slots| && charged[p].packet.id == timers[k].id
    requires forall i :: 0 <= i < |slots| && i != p ==> charged[i] == slots[i]
    requires r == ReplaceTimer(timers, k, t)
    ensures ItemsOf(charged, r)[p] == Item(charged[p].packet, t)
    ensures forall i :: 0 <= i < |slots| && i != p ==> ItemsOf(charged, r)[i] == ItemsOf(slots, timers)[i]
  {
    forall i | 0 <= i < |slots|
      ensures ItemsOf(charged, r)[i] == if i == p then Item(charged[p].packet, t) else ItemsOf(slots, timers)[i]
    {
      TimerOfReplace(timers, k, t, charged[i].packet.id);
    }
  }

  // ---------------------------------------------------------------- adding

  lemma {:induction false} SizeIsBytes(slots: seq<Slot>, timers: seq<Entry>)
    ensures Size(ItemsOf(slots, timers)) == Bytes(slots)
  {
    if slots != [] {
      SizeIsBytes(slots[1..], timers);
      assert ItemsOf(slots, timers)[1..] == ItemsOf(slots[1..], timers);
    }
  }

  lemma {:induction false} FrontItems(cfg: Config, s: Buffer, r: Buffer)
    requires Linked(s) && s.slots != [] && r == FrontDropped(cfg, s)
    ensures Items(r) == Items(s)[1..]
  {
    FrontHasTimer(s);
    var k := FindTimer(s.timers, s.slots[0].packet.id);
    var p := FindSlot(s.slots, s.timers[k].node);
    ItemOfTimer(s, k, p);
    assert p == 0;
    DetachedItems(cfg, s, k, HeadDropped, r);
    ExceptAt(Items(s), 0, s.slots[0].packet.id);
  }

  lemma {:induction false} HeadDropItems(cfg: Config, s: Buffer, incoming: nat, r: Buffer)
    requires Linked(s) && r == HeadDrop(cfg, s, incoming)
    ensures Items(r) == Room(Items(s), incoming, cfg.capacity)
    decreases |s.slots|
  {
    SizeIsBytes(s.slots, s.timers);
    if s.storedBytes + incoming > cfg.capacity && s.slots != [] {
      var d := FrontDropped(cfg, s);
      FrontItems(cfg, s, d);
      HeadDropItems(cfg, d, incoming, r);
    }
  }

  lemma {:induction false} InsertedItems(cfg: Config, s: Buffer, p: Packet, timeout: Duration, r: Buffer)
    requires Linked(s) && FindTimer(s.timers, p.id) == |s.timers| && r == Inserted(cfg, s, p, timeout)
    ensures Items(r) == Items(s) + [Item(p, Timer(s.now + timeout, s.now))]
  {
    NewNode(s);
    NoItem(s, p.id);
    var e := FreshEntry(s, p, timeout);
    forall i | 0 <= i <= |s.slots|
      ensures Items(r)[i] == if i < |s.slots| then Items(s)[i] else Item(p, Timer(s.now + timeout, s.now))
    {
      TimerOfInsert(s.timers, e, r.slots[i].packet.id);
    }
  }

  lemma {:induction false} EnlistedItems(cfg: Config, s: Buffer, p: Packet, timeout: Duration, r: Buffer)
    requires Linked(s) && r == Enlisted(cfg, s, p, timeout)
    ensures Items(r) == Joined(Items(s), Item(p, Timer(s.now + timeout, s.now)))
  {
    var k := FindTimer(s.timers, p.id);
    if k < |s.timers| {
      ItemOfTimer(s, k, FindSlot(s.slots, s.timers[k].node));
    } else {
      NoItem(s, p.id);
      InsertedItems(cfg, s, p, timeout, r);
    }
  }

  lemma {:induction false} AddedFrom(
    cfg: Config, s: Buffer, p: Packet, timeout: Duration, d: Buffer, i: Buffer, r: Buffer)
    requires Linked(s) && timeout > 0 && d == HeadDrop(cfg, s, p.length)
    requires i == Enlisted(cfg, d, p, timeout) && r == Added(cfg, s, p, timeout)
    ensures r == i.(queue := r.queue) && i.now == s.now == d.now
  {
  }

  lemma {:induction false} AddedItems(cfg: Config, s: Buffer, p: Packet, timeout: Duration, r: Buffer)
    requires Linked(s) && r == Added(cfg, s, p, timeout)
    ensures Items(r) == Arrived(Items(s), p, cfg.capacity, s.now, timeout) && r.now == s.now
  {
    if timeout > 0 {
      var d := HeadDrop(cfg, s, p.length);
      var i := Enlisted(cfg, d, p, timeout);
      AddedFrom(cfg, s, p, timeout, d, i, r);
      HeadDropItems(cfg, s, p.length, d);
      EnlistedRoom(cfg, Items(s), p, timeout, d, i);
      SameItems(i, r);
    }
  }

  lemma {:induction false} EnlistedRoom(
    cfg: Config, items: seq<Item>, p: Packet, timeout: Duration, d: Buffer, i: Buffer)
    requires Linked(d) && timeout > 0 && Items(d) == Room(items, p.length, cfg.capacity)
    requires i == Enlisted(cfg, d, p, timeout)
    ensures Items(i) == Arrived(items, p, cfg.capacity, d.now, timeout)
  {
    EnlistedItems(cfg, d, p, timeout, i);
  }

  /** Only packets and timers matter. */
  lemma {:induction false} SameItems(s: Buffer, r: Buffer)
    requires r == s.(queue := r.queue)
    ensures Items(r) == Items(s)
  {
  }

  // ---------------------------------------------------------------- flushing

  lemma {:induction false} UnexpiredAll(items: seq<Item>, now: Time)
    requires forall i :: 0 <= i < |items| ==> items[i].timer.expiry > now
    ensures Unexpired(items, now) == items
  {
    if items != [] {
      UnexpiredAll(items[1..], now);
    }
  }

  lemma {:induction false} UnexpiredExcept(items: seq<Item>, id: Identifier, now: Time)
    requires forall i :: 0 <= i < |items| && items[i].packet.id == id ==> items[i].timer.expiry <= now
    ensures Unexpired(Except(items, id), now) == Unexpired(items, now)
  {
    if items != [] {
      UnexpiredExcept(items[1..], id, now);
      if items[0].packet.id == id {
        AddNothing(Except(items[1..], id));
        AddNothing(Unexpired(items[1..], now));
      } else {
        UnexpiredCons(items[0], Except(items[1..], id), now);
      }
    }
  }

  lemma {:induction false} UnexpiredCons(x: Item, rest: seq<Item>, now: Time)
    ensures Unexpired([x] + rest, now) == (if x.timer.expiry > now then [x] else []) + Unexpired(rest, now)
  {
    assert ([x] + rest)[1..] == rest;
  }

  lemma {:induction false} PoppedItems(cfg: Config, s: Buffer, r: Buffer)
    requires Linked(s) && s.timers != [] && r == Popped(cfg, s)
    ensures Items(r) == Except(Items(s), s.timers[0].id)
  {
    var (c, left) := Charged(cfg, s, 0);
    ChargedLinked(cfg, s, 0);
    ChargedDetached(cfg, s, 0, c, left, Flushed, r);
  }

  lemma {:induction false} NoneExpired(s: Buffer)
    requires Linked(s) && Sorted(s.timers) && (s.timers == [] || s.timers[0].timer.expiry > s.now)
    ensures Unexpired(Items(s), s.now) == Items(s)
  {
    forall i | 0 <= i < |s.slots| ensures Items(s)[i].timer.expiry > s.now {
      StoredMeansTimed(s, s.slots[i].packet.id);
    }
    UnexpiredAll(Items(s), s.now);
  }

  lemma {:induction false} PoppedUnexpired(cfg: Config, s: Buffer, p: Buffer)
    requires Linked(s) && s.timers != [] && s.timers[0].timer.expiry <= s.now && p == Popped(cfg, s)
    ensures Unexpired(Items(p), s.now) == Unexpired(Items(s), s.now)
  {
    PoppedItems(cfg, s, p);
    ItemOfTimer(s, 0, FindSlot(s.slots, s.timers[0].node));
    UnexpiredExcept(Items(s), s.timers[0].id, s.now);
  }

  lemma {:induction false} PoppedAllItems(cfg: Config, s: Buffer, r: Buffer)
    requires Linked(s) && Sorted(s.timers) && r == PoppedAll(cfg, s)
    ensures Items(r) == Unexpired(Items(s), s.now)
    decreases |s.timers|
  {
    if s.timers != [] && s.timers[0].timer.expiry <= s.now {
      var p := Popped(cfg, s);
      PoppedUnexpired(cfg, s, p);
      PoppedAllItems(cfg, p, r);
    } else {
      NoneExpired(s);
    }
  }

  lemma {:induction false} FlushedItems(cfg: Config, s: Buffer, r: Buffer)
    requires Linked(s) && Sorted(s.timers) && r == FlushedAll(cfg, s)
    ensures Items(r) == Unexpired(Items(s), s.now) && r.now == s.now
  {
    PoppedAllItems(cfg, s, PoppedAll(cfg, s));
  }

  // ---------------------------------------------------------------- all steps

  /** The pending flush runs in this step. */
  ghost predicate Flushes(cfg: Config, s: Buffer, op: Op) {
    match op
    case Trigger(tp) => s.now <= tp && FlushDue(cfg, s, tp)
    case RunDue => !NothingDue(s) && s.queue[0].scope == cfg.self
    case _ => false
  }

  function Clock(now: Time, op: Op): Time {
    if (op.Trigger? || op.Advance?) && now <= op.tp then op.tp else now
  }

  /** Every operation does to the buffer what the plain list says. */
  lemma {:induction false} StepRefinesList(cfg: Config, s: Buffer, op: Op, r: Buffer)
    requires Invariant(cfg, s) && r == Step(cfg, s, op)
    ensures Items(r) == Next(cfg, Items(s), s.now, op, Flushes(cfg, s, op))
    ensures r.now == Clock(s.now, op)
  {
    match op
    case Add(packet, timeout) => AddedItems(cfg, s, packet, timeout, r);
    case Remove(id) => RemovedItems(cfg, s, id, r);
    case Update(id, timeout) => UpdatedItems(cfg, s, id, timeout, r);
    case Fetch(id) => FetchedItems(cfg, s, id, r, FetchedById(cfg, s, id).1);
    case Trigger(tp) => TriggeredItems(cfg, s, tp, r);
    case RunDue => DueRunItems(cfg, s, r);
    case Advance(_) =>
    case Elsewhere(_, _) =>
  }

  lemma {:induction false} TriggeredItems(cfg: Config, s: Buffer, tp: Time, r: Buffer)
    requires Invariant(cfg, s) && r == if tp < s.now then s else Triggered(cfg, s, tp)
    ensures Items(r) == if s.now <= tp && FlushDue(cfg, s, tp) then Unexpired(Items(s), tp) else Items(s)
    ensures r.now == if s.now <= tp then tp else s.now
  {
    if s.now <= tp && FlushDue(cfg, s, tp) {
      FlushedItems(cfg, Advanced(s, tp), r);
    }
  }

  lemma {:induction false} DueRunItems(cfg: Config, s: Buffer, r: Buffer)
    requires Invariant(cfg, s) && r == DueRun(cfg, s)
    ensures r.now == s.now
    ensures Items(r) == if !NothingDue(s) && s.queue[0].scope == cfg.self then Unexpired(Items(s), s.now) else Items(s)
  {
    if !NothingDue(s) && s.queue[0].scope == cfg.self {
      FlushedItems(cfg, s.(queue := s.queue[1..]), r);
    }
  }
}
