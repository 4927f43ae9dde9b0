/**
 * What the operations of the contention buffer compute, as functions on its state.
 *
 * The buffer couples a FIFO list of packets, a relation between timers and packet identifiers
 * (ordered by expiry on one side, unique identifiers on the other, each pair carrying an iterator
 * into the list), a byte count, a counter table and at most one pending flush in the runtime.
 * List nodes are numbered in the order of their creation, so that an iterator is a node number and
 * two entries are the same entry exactly when their node numbers are equal.
 */
module CbfModel {
  import opened Sequences
  import opened Runtime
  import opened CbfCounter

  datatype Packet = Packet(id: Identifier, length: nat, lifetime: nat)

  /** One element of the packet list. */
  datatype Slot = Slot(node: nat, packet: Packet)

  datatype Timer = Timer(expiry: Time, start: Time)

  /** One element of the timer relation; `node` is the iterator stored beside the pair. */
  datatype Entry = Entry(timer: Timer, id: Identifier, node: nat)

  datatype Fate = Removed | HeadDropped | Fetched | Flushed

  /** History of the calls the buffer makes on packets, counters and the timer callback. */
  datatype Event =
    | Stored(id: Identifier, at: Time, lifetime: nat)
    | Reduced(id: Identifier, spent: Duration, at: Time)
    | Incremented(id: Identifier)
    | Passed(id: Identifier, expiry: Time, at: Time, packet: Packet)
    | Gone(id: Identifier, fate: Fate)

  /**
   * `self` is the scope under which the buffer schedules its flush, `recode` the loss a lifetime
   * suffers when it is written back into the packet header.
   */
  datatype Config = Config(capacity: nat, kind: Kind, self: Scope, recode: nat -> nat)

  datatype Buffer = Buffer(
    slots: seq<Slot>,
    timers: seq<Entry>,
    storedBytes: nat,
    counters: Counters,
    nextNode: nat,
    now: Time,
    queue: seq<Scheduled>,
    log: seq<Event>)

  // ---------------------------------------------------------------- containers

  datatype Link = Link(id: Identifier, node: nat)

  function SlotLinks(slots: seq<Slot>): (r: seq<Link>)
    ensures |r| == |slots|
    ensures forall i :: 0 <= i < |r| ==> r[i] == Link(slots[i].packet.id, slots[i].node)
  {
    seq(|slots|, i requires 0 <= i < |slots| => Link(slots[i].packet.id, slots[i].node))
  }

  function TimerLinks(timers: seq<Entry>): (r: seq<Link>)
    ensures |r| == |timers|
    ensures forall i :: 0 <= i < |r| ==> r[i] == Link(timers[i].id, timers[i].node)
  {
    seq(|timers|, i requires 0 <= i < |timers| => Link(timers[i].id, timers[i].node))
  }

  ghost predicate Unique(links: seq<Link>) {
    forall i, j :: 0 <= i < j < |links| ==> links[i].id != links[j].id && links[i].node != links[j].node
  }

  function Bytes(slots: seq<Slot>): nat {
    if slots == [] then 0 else slots[0].packet.length + Bytes(slots[1..])
  }

  /** Position of an identifier in the timer relation, its size if there is none. */
  function FindTimer(timers: seq<Entry>, id: Identifier): (k: nat)
    ensures k <= |timers|
    ensures k < |timers| ==> timers[k].id == id
    ensures forall i :: 0 <= i < k ==> timers[i].id != id
  {
    Find(timers, (e: Entry) => e.id == id)
  }

  /** Position of a list node, the size of the list if there is none. */
  function FindSlot(slots: seq<Slot>, node: nat): (k: nat)
    ensures k <= |slots|
    ensures k < |slots| ==> slots[k].node == node
    ensures forall i :: 0 <= i < k ==> slots[i].node != node
  {
    Find(slots, (x: Slot) => x.node == node)
  }

  ghost predicate Sorted(timers: seq<Entry>) {
    forall i, j :: 0 <= i < j < |timers| ==> timers[i].timer.expiry <= timers[j].timer.expiry
  }

  /** Number of leading timers that expire at t or earlier. */
  function Expired(timers: seq<Entry>, t: Time): (k: nat)
    ensures k <= |timers|
    ensures forall i :: 0 <= i < k ==> timers[i].timer.expiry <= t
    ensures k < |timers| ==> t < timers[k].timer.expiry
  {
    Find(timers, (e: Entry) => t < e.timer.expiry)
  }

  function InsertTimer(timers: seq<Entry>, e: Entry): seq<Entry> {
    var k := Expired(timers, e.timer.expiry);
    Spliced(timers, k, e)
  }

  /** A timer is replaced in place if the order permits it and moved otherwise. */
  function ReplaceTimer(timers: seq<Entry>, k: nat, t: Timer): seq<Entry>
    requires k < |timers|
  {
    var e := timers[k].(timer := t);
    if (k == 0 || timers[k - 1].timer.expiry <= t.expiry)
       && (k + 1 == |timers| || t.expiry <= timers[k + 1].timer.expiry)
    then timers[k := e]
    else InsertTimer(Without(timers, k), e)
  }

  // ---------------------------------------------------------------- structure

  /**
   * Packet list and timer relation hold the same pairs of identifier and node, no identifier and no
   * node twice, and the byte count is the sum of the stored lengths.
   */
  ghost predicate Linked(s: Buffer) {
    && Unique(SlotLinks(s.slots))
    && Unique(TimerLinks(s.timers))
    && multiset(SlotLinks(s.slots)) == multiset(TimerLinks(s.timers))
    && s.storedBytes == Bytes(s.slots)
    && (forall i :: 0 <= i < |s.slots| ==> s.slots[i].node < s.nextNode)
  }

  /** Every timer entry points at the list node holding its packet. */
  lemma {:induction false} EntryHasSlot(s: Buffer, k: nat)
    requires Linked(s) && k < |s.timers|
    ensures FindSlot(s.slots, s.timers[k].node) < |s.slots|
    ensures s.slots[FindSlot(s.slots, s.timers[k].node)].packet.id == s.timers[k].id
    ensures s.slots[FindSlot(s.slots, s.timers[k].node)].packet.length <= s.storedBytes
  {
    var links := SlotLinks(s.slots);
    assert TimerLinks(s.timers)[k] in multiset(links);
    var i :| 0 <= i < |links| && links[i] == TimerLinks(s.timers)[k];
    var p := FindSlot(s.slots, s.timers[k].node);
    assert p <= i;
    assert links[p].node == links[i].node;
    BytesWithout(s.slots, p);
  }

  lemma {:induction false} BytesWithout(slots: seq<Slot>, p: nat)
    requires p < |slots|
    ensures Bytes(slots) == slots[p].packet.length + Bytes(Without(slots, p))
  {
    if p == 0 {
      assert Without(slots, p) == slots[1..];
    } else {
      BytesWithout(slots[1..], p - 1);
      assert Without(slots, p) == [slots[0]] + Without(slots[1..], p - 1);
    }
  }

  // ---------------------------------------------------------------- operations

  /**
   * Packet::reduce_lifetime: the packet with its lifetime written back and the remaining lifetime.
   */
  function ReduceLifetime(cfg: Config, p: Packet, spent: Duration): (Packet, nat) {
    if spent <= 0 then (p, p.lifetime)
    else if spent < p.lifetime then (p.(lifetime := cfg.recode(p.lifetime - spent)), p.lifetime - spent)
    else (p.(lifetime := 0), 0)
  }

  /** Charge the k-th timer's queuing time to its packet. */
  function Charged(cfg: Config, s: Buffer, k: nat): (r: (Buffer, nat))
    requires Linked(s) && k < |s.timers|
  {
    EntryHasSlot(s, k);
    var e := s.timers[k];
    var p := FindSlot(s.slots, e.node);
    var queuing := s.now - e.timer.start;
    var (packet, remaining) := ReduceLifetime(cfg, s.slots[p].packet, queuing);
    (s.(slots := s.slots[p := s.slots[p].(packet := packet)],
        log := s.log + [Reduced(e.id, queuing, s.now)]),
     remaining)
  }

  /** Take the k-th timer and its packet out of all containers. */
  function Detached(cfg: Config, s: Buffer, k: nat, fate: Fate): (r: Buffer)
    requires Linked(s) && k < |s.timers|
  {
    EntryHasSlot(s, k);
    var e := s.timers[k];
    var p := FindSlot(s.slots, e.node);
    s.(slots := Without(s.slots, p),
       timers := Without(s.timers, k),
       storedBytes := s.storedBytes - s.slots[p].packet.length,
       counters := OnRemove(cfg.kind, s.counters, e.id),
       log := s.log + [Gone(e.id, fate)])
  }

  /** Replace the pending flush by one at the earliest expiry. */
  function Rearmed(cfg: Config, s: Buffer): Buffer
    requires s.timers != []
  {
    s.(queue := Scheduling(Cancelled(s.queue, cfg.self), Scheduled(s.timers[0].timer.expiry, cfg.self)))
  }

  /** Removing the earliest timer moves the flush to the next one, if there is one. */
  function Unlinked(cfg: Config, s: Buffer, k: nat, fate: Fate): (r: Buffer)
    requires Linked(s) && k < |s.timers|
  {
    var d := Detached(cfg, s, k, fate);
    if k == 0 && d.timers != [] then Rearmed(cfg, d) else d
  }

  /** The oldest packets are dropped until an incoming packet fits or nothing is left to drop. */
  function HeadDrop(cfg: Config, s: Buffer, incoming: nat): (r: Buffer)
    requires Linked(s)
    ensures Linked(r) && r.now == s.now && r.queue == s.queue && r.nextNode == s.nextNode
    ensures r.slots == [] || r.storedBytes + incoming <= cfg.capacity
    decreases |s.slots|
  {
    if s.storedBytes + incoming > cfg.capacity && s.slots != [] then
      var d := FrontDropped(cfg, s);
      HeadDrop(cfg, d, incoming)
    else s
  }

  function FrontDropped(cfg: Config, s: Buffer): (r: Buffer)
    requires Linked(s) && s.slots != []
    ensures Linked(r) && |r.slots| == |s.slots| - 1
    ensures r.now == s.now && r.queue == s.queue && r.nextNode == s.nextNode
  {
    FrontHasTimer(s);
    var k := FindTimer(s.timers, s.slots[0].packet.id);
    DetachedLinked(cfg, s, k, HeadDropped);
    Detached(cfg, s, k, HeadDropped)
  }

  /** The timer entry of a packet that arrives now. */
  function FreshEntry(s: Buffer, packet: Packet, timeout: Duration): Entry {
    Entry(Timer(s.now + timeout, s.now), packet.id, s.nextNode)
  }

  function Inserted(cfg: Config, s: Buffer, packet: Packet, timeout: Duration): Buffer {
    s.(slots := s.slots + [Slot(s.nextNode, packet)],
       timers := InsertTimer(s.timers, FreshEntry(s, packet, timeout)),
       storedBytes := s.storedBytes + packet.length,
       counters := OnAdd(cfg.kind, s.counters, packet.id),
       nextNode := s.nextNode + 1,
       log := s.log + [Stored(packet.id, s.now, packet.lifetime)])
  }

  /** Identity of the earliest timer. */
  function First(s: Buffer): Option<nat> {
    if s.timers == [] then None else Some(s.timers[0].node)
  }

  /** A duplicate only allocates and discards a list node. */
  function Enlisted(cfg: Config, s: Buffer, packet: Packet, timeout: Duration): (r: Buffer) {
    if FindTimer(s.timers, packet.id) < |s.timers| then s.(nextNode := s.nextNode + 1)
    else Inserted(cfg, s, packet, timeout)
  }

  /** Room is made even for a duplicate; the flush moves when the earliest timer is another one. */
  function Added(cfg: Config, s: Buffer, packet: Packet, timeout: Duration): (r: Buffer)
    requires Linked(s)
  {
    if timeout <= 0 then s
    else
      var i := Enlisted(cfg, HeadDrop(cfg, s, packet.length), packet, timeout);
      if First(i) != First(s) then Rearmed(cfg, i) else i
  }

  function RemovedById(cfg: Config, s: Buffer, id: Identifier): (r: Buffer)
    requires Linked(s)
  {
    var k := FindTimer(s.timers, id);
    if k == |s.timers| then s else Unlinked(cfg, s, k, Removed)
  }

  /** The timer restarts, but a pending flush stays where it is. */
  function Updated(cfg: Config, s: Buffer, id: Identifier, timeout: Duration): (r: Buffer)
    requires Linked(s)
  {
    var k := FindTimer(s.timers, id);
    if k == |s.timers| then s
    else
      var c := Charged(cfg, s, k).0;
      c.(timers := ReplaceTimer(c.timers, k, Timer(s.now + timeout, s.now)),
         counters := OnIncrement(c.counters, id),
         log := c.log + [Incremented(id)])
  }

  function FetchedById(cfg: Config, s: Buffer, id: Identifier): (r: (Buffer, Option<Packet>))
    requires Linked(s)
  {
    var k := FindTimer(s.timers, id);
    if k == |s.timers| then (s, None)
    else
      ChargedLinked(cfg, s, k);
      EntryHasSlot(s, k);
      var (c, remaining) := Charged(cfg, s, k);
      var packet := c.slots[FindSlot(s.slots, s.timers[k].node)].packet;
      (Unlinked(cfg, c, k, Fetched), if remaining > 0 then Some(packet) else None)
  }

  /** Expire the earliest timer: its packet is passed on if it has lifetime left. */
  function Popped(cfg: Config, s: Buffer): (r: Buffer)
    requires Linked(s) && s.timers != []
    ensures Linked(r) && r.timers == s.timers[1..]
    ensures r.now == s.now && r.queue == s.queue && r.nextNode == s.nextNode
  {
    var e := s.timers[0];
    var (c, remaining) := Charged(cfg, s, 0);
    ChargedLinked(cfg, s, 0);
    EntryHasSlot(s, 0);
    var packet := c.slots[FindSlot(s.slots, e.node)].packet;
    var p := if remaining > 0
             then c.(log := c.log + [Passed(e.id, e.timer.expiry, s.now, packet)])
             else c;
    DetachedLinked(cfg, p, 0, Flushed);
    Detached(cfg, p, 0, Flushed)
  }

  lemma {:induction false} ExpiredTail(timers: seq<Entry>, now: Time)
    requires timers != [] && timers[0].timer.expiry <= now
    ensures timers[1..][Expired(timers[1..], now)..] == timers[Expired(timers, now)..]
  {
  }

  /** Expire all timers that are due. */
  function PoppedAll(cfg: Config, s: Buffer): (r: Buffer)
    requires Linked(s)
    ensures Linked(r) && r.timers == s.timers[Expired(s.timers, s.now)..]
    ensures r.now == s.now && r.queue == s.queue && r.nextNode == s.nextNode
    decreases |s.timers|
  {
    if s.timers != [] && s.timers[0].timer.expiry <= s.now then
      ExpiredTail(s.timers, s.now);
      PoppedAll(cfg, Popped(cfg, s))
    else s
  }

  function FlushedAll(cfg: Config, s: Buffer): (r: Buffer)
    requires Linked(s)
  {
    var p := PoppedAll(cfg, s);
    if p.timers != [] then Rearmed(cfg, p) else p
  }

  /** The clock moves on and due callbacks leave the queue. */
  function Advanced(s: Buffer, tp: Time): Buffer {
    s.(now := tp, queue := s.queue[UpperBound(s.queue, tp)..])
  }

  predicate FlushDue(cfg: Config, s: Buffer, tp: Time) {
    Pending(s.queue[..UpperBound(s.queue, tp)], cfg.self) != []
  }

  /** One round of the runtime's trigger loop: the first callback runs if it is due. */
  function DueRun(cfg: Config, s: Buffer): (r: Buffer)
    requires Linked(s)
  {
    if NothingDue(s) then s
    else
      var p := s.(queue := s.queue[1..]);
      if s.queue[0].scope == cfg.self then FlushedAll(cfg, p) else p
  }

  /** The trigger loop has come to its end. */
  predicate NothingDue(s: Buffer) {
    s.queue == [] || s.queue[0].deadline > s.now
  }

  /** Triggering the runtime runs a due flush of this buffer once. */
  function Triggered(cfg: Config, s: Buffer, tp: Time): (r: Buffer)
    requires Linked(s)
  {
    if FlushDue(cfg, s, tp) then FlushedAll(cfg, Advanced(s, tp)) else Advanced(s, tp)
  }

  function Initial(now: Time, queue: seq<Scheduled>): Buffer {
    Buffer([], [], 0, map[], 0, now, queue, [])
  }

  // ---------------------------------------------------------------- structure lemmas

  lemma {:induction false} FrontHasTimer(s: Buffer)
    requires Linked(s) && s.slots != []
    ensures FindTimer(s.timers, s.slots[0].packet.id) < |s.timers|
    ensures s.timers[FindTimer(s.timers, s.slots[0].packet.id)].node == s.slots[0].node
  {
    var links := TimerLinks(s.timers);
    assert SlotLinks(s.slots)[0] in multiset(links);
    var i :| 0 <= i < |links| && links[i] == SlotLinks(s.slots)[0];
    var k := FindTimer(s.timers, s.slots[0].packet.id);
    assert k <= i;
    assert links[k].id == links[i].id;
  }

  lemma {:induction false} UniqueWithout(links: seq<Link>, k: nat)
    requires Unique(links) && k < |links|
    ensures Unique(Without(links, k))
  {
    var r := Without(links, k);
    forall i, j | 0 <= i < j < |r| ensures r[i].id != r[j].id && r[i].node != r[j].node {
      WithoutAt(links, k, i);
      WithoutAt(links, k, j);
    }
  }

  lemma {:induction false} SlotLinksWithout(slots: seq<Slot>, p: nat)
    requires p < |slots| && Unique(SlotLinks(slots))
    ensures Unique(SlotLinks(Without(slots, p)))
    ensures multiset(SlotLinks(Without(slots, p)))
         == multiset(SlotLinks(slots)) - multiset{Link(slots[p].packet.id, slots[p].node)}
  {
    WithoutMultiset(SlotLinks(slots), p);
    UniqueWithout(SlotLinks(slots), p);
    assert SlotLinks(Without(slots, p)) == Without(SlotLinks(slots), p);
  }

  lemma {:induction false} TimerLinksWithout(timers: seq<Entry>, k: nat)
    requires k < |timers| && Unique(TimerLinks(timers))
    ensures Unique(TimerLinks(Without(timers, k)))
    ensures multiset(TimerLinks(Without(timers, k)))
         == multiset(TimerLinks(timers)) - multiset{Link(timers[k].id, timers[k].node)}
  {
    WithoutMultiset(TimerLinks(timers), k);
    UniqueWithout(TimerLinks(timers), k);
    assert TimerLinks(Without(timers, k)) == Without(TimerLinks(timers), k);
  }

  lemma {:induction false} DetachedLinked(cfg: Config, s: Buffer, k: nat, fate: Fate)
    requires Linked(s) && k < |s.timers|
    ensures Linked(Detached(cfg, s, k, fate))
    ensures |Detached(cfg, s, k, fate).slots| == |s.slots| - 1
  {
    EntryHasSlot(s, k);
    WithoutLinked(s, k, FindSlot(s.slots, s.timers[k].node), Detached(cfg, s, k, fate));
  }

  lemma {:induction false} WithoutLinked(s: Buffer, k: nat, p: nat, r: Buffer)
    requires Linked(s) && k < |s.timers| && p < |s.slots| && r.nextNode == s.nextNode
    requires s.slots[p].packet.id == s.timers[k].id && s.slots[p].node == s.timers[k].node
    requires r.slots == Without(s.slots, p) && r.timers == Without(s.timers, k)
    requires r.storedBytes == s.storedBytes - s.slots[p].packet.length
    ensures Linked(r) && |r.slots| == |s.slots| - 1
  {
    BytesWithout(s.slots, p);
    SlotLinksWithout(s.slots, p);
    TimerLinksWithout(s.timers, k);
  }

  lemma {:induction false} BytesUpdate(slots: seq<Slot>, p: nat, s: Slot)
    requires p < |slots| && s.packet.length == slots[p].packet.length
    ensures Bytes(slots[p := s]) == Bytes(slots)
  {
    if p > 0 {
      BytesUpdate(slots[1..], p - 1, s);
      assert slots[p := s][1..] == slots[1..][p - 1 := s];
    }
  }

  lemma {:induction false} ChargedLinked(cfg: Config, s: Buffer, k: nat)
    requires Linked(s) && k < |s.timers|
    ensures Linked(Charged(cfg, s, k).0)
    ensures Charged(cfg, s, k).0.timers == s.timers
  {
    EntryHasSlot(s, k);
    var p := FindSlot(s.slots, s.timers[k].node);
    var r := Charged(cfg, s, k).0;
    BytesUpdate(s.slots, p, r.slots[p]);
    assert SlotLinks(r.slots) == SlotLinks(s.slots);
  }
}
