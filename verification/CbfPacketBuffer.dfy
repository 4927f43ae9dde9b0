/**
 * The contention buffer itself: its methods change the containers step by step and are proved to
 * compute the functions of CbfModel.
 */
module CbfPacketBuffer {
  import opened Sequences
  import opened Runtime
  import opened CbfCounter
  import opened CbfModel
  import opened CbfProofs
  import opened CbfRuns
  import opened CbfTrigger

  class PacketBuffer {
    const cfg: Config
    const runtime: ManualRuntime
    const counter: CounterTable
    var slots: seq<Slot>
    var timers: seq<Entry>
    var storedBytes: nat
    var nextNode: nat
    ghost var log: seq<Event>

    ghost function View(): Buffer
      reads this, runtime, counter
    {
      Buffer(slots, timers, storedBytes, counter.counters, nextNode, runtime.now, runtime.queue, log)
    }

    ghost predicate Valid()
      reads this, runtime, counter
    {
      counter.kind == cfg.kind && Invariant(cfg, View())
    }

    constructor (cfg: Config, runtime: ManualRuntime, counter: CounterTable)
      requires Fresh(cfg, runtime.queue)
      requires counter.kind == cfg.kind && counter.counters == map[]
      ensures Valid() && this.cfg == cfg && this.runtime == runtime && this.counter == counter
      ensures View() == Initial(runtime.now, runtime.queue)
    {
      this.cfg, this.runtime, this.counter := cfg, runtime, counter;
      slots, timers, storedBytes, nextNode, log := [], [], 0, 0, [];
      new;
      InitialInvariant(cfg, runtime.now, runtime.queue);
    }

    method FindById(id: Identifier) returns (k: nat)
      ensures k == FindTimer(timers, id)
    {
      k := 0;
      while k < |timers| && timers[k].id != id
        invariant 0 <= k <= |timers|
        invariant forall i :: 0 <= i < k ==> timers[i].id != id
      {
        k := k + 1;
      }
    }

    method FindNode(node: nat) returns (k: nat)
      ensures k == FindSlot(slots, node)
    {
      k := 0;
      while k < |slots| && slots[k].node != node
        invariant 0 <= k <= |slots|
        invariant forall i :: 0 <= i < k ==> slots[i].node != node
      {
        k := k + 1;
      }
    }

    /** Number of leading timers that are not later than t. */
    method UpperBoundOf(t: Time) returns (k: nat)
      ensures k == Expired(timers, t)
    {
      k := 0;
      while k < |timers| && timers[k].timer.expiry <= t
        invariant 0 <= k <= |timers|
        invariant forall i :: 0 <= i < k ==> timers[i].timer.expiry <= t
      {
        k := k + 1;
      }
    }

    method ScheduleTimer()
      requires timers != []
      modifies runtime
      ensures View() == Rearmed(cfg, old(View()))
    {
      runtime.Cancel(cfg.self);
      runtime.Schedule(timers[0].timer.expiry, cfg.self);
    }

    method RemoveTimer(k: nat)
      requires k < |timers|
      modifies this`timers, runtime
      ensures timers == Without(old(timers), k)
      ensures runtime.now == old(runtime.now)
      ensures View() == var d := old(View()).(timers := timers);
                        if k == 0 && timers != [] then Rearmed(cfg, d) else d
    {
      timers := Without(timers, k);
      if k == 0 && timers != [] {
        ScheduleTimer();
      }
    }

    /** Reduce the lifetime of the k-th timer's packet, at position p; tells whether any is left. */
    method ReduceLifetimeOf(k: nat) returns (valid: bool, p: nat)
      requires Linked(View()) && k < |timers|
      modifies this`slots, this`log
      ensures p == FindSlot(old(slots), timers[k].node) < |slots|
      ensures View() == Charged(cfg, old(View()), k).0
      ensures valid <==> Charged(cfg, old(View()), k).1 > 0
    {
      EntryHasSlot(View(), k);
      p := FindNode(timers[k].node);
      var queuing := runtime.now - timers[k].timer.start;
      var (packet, remaining) := ReduceLifetime(cfg, slots[p].packet, queuing);
      slots := slots[p := slots[p].(packet := packet)];
      log := log + [Reduced(timers[k].id, queuing, runtime.now)];
      valid := remaining > 0;
    }

    /** Give back the bytes, the counter and the list node of the k-th timer's packet. */
    method Release(k: nat, ghost fate: Fate)
      requires Linked(View()) && k < |timers| && counter.kind == cfg.kind
      modifies this`slots, this`storedBytes, this`log, counter
      ensures View() == Detached(cfg, old(View()), k, fate).(timers := timers)
    {
      EntryHasSlot(View(), k);
      var p := FindNode(timers[k].node);
      storedBytes := storedBytes - slots[p].packet.length;
      counter.Remove(timers[k].id);
      slots := Without(slots, p);
      log := log + [Gone(timers[k].id, fate)];
    }

    method Remove(id: Identifier) returns (dropped: bool)
      requires Valid()
      modifies this, runtime, counter
      ensures Valid() && View() == RemovedById(cfg, old(View()), id)
      ensures dropped <==> TimerOf(old(timers), id).Some?
      ensures |slots| == |timers|
    {
      ghost var s := View();
      dropped := false;
      var k := FindById(id);
      if k < |timers| {
        Release(k, Removed);
        RemoveTimer(k);
        dropped := true;
      }
      RemovedInvariant(cfg, s, id, View());
      LinkCount(View());
    }

    method Update(id: Identifier, timeout: Duration)
      requires Valid()
      modifies this, runtime, counter
      ensures Valid() && View() == Updated(cfg, old(View()), id, timeout)
    {
      ghost var s := View();
      var k := FindById(id);
      if k < |timers| {
        var valid, p := ReduceLifetimeOf(k);
        timers := ReplaceTimer(timers, k, Timer(runtime.now + timeout, runtime.now));
        counter.Increment(id);
        log := log + [Incremented(id)];
      }
      UpdatedInvariant(cfg, s, id, timeout, View());
    }

    method Fetch(id: Identifier) returns (packet: Option<Packet>)
      requires Valid()
      modifies this, runtime, counter
      ensures Valid() && (View(), packet) == FetchedById(cfg, old(View()), id)
    {
      ghost var s := View();
      packet := None;
      var k := FindById(id);
      if k < |timers| {
        ChargedLinked(cfg, s, k);
        var valid, p := ReduceLifetimeOf(k);
        if valid {
          packet := Some(slots[p].packet);
        }
        Release(k, Fetched);
        RemoveTimer(k);
      }
      FetchedInvariant(cfg, s, id, View());
    }

    method Add(packet: Packet, timeout: Duration)
      requires Valid()
      modifies this, runtime, counter
      ensures Valid() && View() == Added(cfg, old(View()), packet, timeout)
      ensures |slots| == |timers|
    {
      ghost var s := View();
      if timeout > 0 {
        var first := if timers == [] then None else Some(timers[0].node);
        MakeRoom(packet.length);
        Enlist(packet, timeout, HeadDrop(cfg, s, packet.length));
        if Some(timers[0].node) != first {
          ScheduleTimer();
        }
      }
      AddedInvariant(cfg, s, packet, timeout, View());
      LinkCount(View());
    }

    /** Append the packet and its timer; a duplicate, for which there is a timer, is taken back. */
    method Enlist(packet: Packet, timeout: Duration, ghost d: Buffer)
      requires View() == d.(storedBytes := d.storedBytes + packet.length) && counter.kind == cfg.kind
      modifies this, counter
      ensures timers != []
      ensures View() == Enlisted(cfg, d, packet, timeout)
    {
      var k := FindById(packet.id);
      if k < |timers| {
        AppendDuplicate(packet, d);
      } else {
        AppendNew(packet, timeout, d);
      }
    }

    method AppendDuplicate(packet: Packet, ghost d: Buffer)
      requires View() == d.(storedBytes := d.storedBytes + packet.length)
      modifies this
      ensures View() == d.(nextNode := d.nextNode + 1)
    {
      TakeInit(slots, Slot(nextNode, packet));
      slots := slots + [Slot(nextNode, packet)];
      PopBack();
      nextNode := nextNode + 1;
    }

    method AppendNew(packet: Packet, timeout: Duration, ghost d: Buffer)
      requires View() == d.(storedBytes := d.storedBytes + packet.length) && counter.kind == cfg.kind
      modifies this, counter
      ensures timers != []
      ensures View() == Inserted(cfg, d, packet, timeout)
    {
      slots := slots + [Slot(nextNode, packet)];
      StartTimer(packet.id, timeout, packet.lifetime);
      nextNode := nextNode + 1;
    }

    /** The packet added last leaves the list again. */
    method PopBack()
      requires slots != [] && slots[|slots| - 1].packet.length <= storedBytes
      modifies this`slots, this`storedBytes
      ensures slots == old(slots)[..|old(slots)| - 1]
      ensures storedBytes == old(storedBytes) - old(slots)[|old(slots)| - 1].packet.length
    {
      storedBytes := storedBytes - slots[|slots| - 1].packet.length;
      slots := slots[..|slots| - 1];
    }

    /** Start a timer for the packet in the newest list node. */
    method StartTimer(id: Identifier, timeout: Duration, ghost lifetime: nat)
      requires counter.kind == cfg.kind
      modifies this`timers, this`log, counter
      ensures timers != []
      ensures timers == InsertTimer(old(timers), Entry(Timer(runtime.now + timeout, runtime.now), id, nextNode))
      ensures counter.counters == OnAdd(cfg.kind, old(counter.counters), id)
      ensures log == old(log) + [Stored(id, runtime.now, lifetime)]
    {
      var timer := Timer(runtime.now + timeout, runtime.now);
      var at := UpperBoundOf(timer.expiry);
      timers := timers[..at] + [Entry(timer, id, nextNode)] + timers[at..];
      counter.Add(id);
      log := log + [Stored(id, runtime.now, lifetime)];
    }

    /** Head drop: the byte count already includes the incoming packet. */
    method MakeRoom(incoming: nat)
      requires Linked(View()) && counter.kind == cfg.kind
      modifies this, counter
      ensures View() == var d := HeadDrop(cfg, old(View()), incoming); d.(storedBytes := d.storedBytes + incoming)
    {
      ghost var s := View();
      storedBytes := storedBytes + incoming;
      while storedBytes > cfg.capacity && slots != []
        invariant Linked(s) && View() == s.(storedBytes := s.storedBytes + incoming)
        invariant HeadDrop(cfg, s, incoming) == HeadDrop(cfg, old(View()), incoming)
        decreases |slots|
      {
        DropFront(s, incoming);
        s := FrontDropped(cfg, s);
      }
    }

    method DropFront(ghost s: Buffer, ghost incoming: nat)
      requires Linked(s) && s.slots != [] && counter.kind == cfg.kind
      requires View() == s.(storedBytes := s.storedBytes + incoming)
      modifies this, counter
      ensures View() == var d := FrontDropped(cfg, s); d.(storedBytes := d.storedBytes + incoming)
    {
      FrontDroppedIs(cfg, s);
      var id := slots[0].packet.id;
      EraseFront();
      counter.Remove(id);
      log := log + [Gone(id, HeadDropped)];
    }

    /** The oldest packet leaves list and timers. */
    method EraseFront()
      requires slots != [] && slots[0].packet.length <= storedBytes
      requires FindTimer(timers, slots[0].packet.id) < |timers|
      modifies this`slots, this`timers, this`storedBytes
      ensures slots == old(slots)[1..] && storedBytes == old(storedBytes) - old(slots)[0].packet.length
      ensures timers == Without(old(timers), FindTimer(old(timers), old(slots)[0].packet.id))
    {
      storedBytes := storedBytes - slots[0].packet.length;
      var k := FindById(slots[0].packet.id);
      timers := Without(timers, k);
      slots := slots[1..];
    }

    /** Runtime callback: the flush that was pending has just left the queue. */
    method Flush()
      requires Flushable(cfg, View()) && counter.kind == cfg.kind
      modifies this, runtime, counter
      ensures Valid() && View() == FlushedAll(cfg, old(View()))
    {
      ghost var s := View();
      PopExpired();
      if timers != [] {
        ScheduleTimer();
      }
      FlushedInvariant(cfg, s, View());
    }

    method PopExpired()
      requires Linked(View()) && Sorted(timers) && counter.kind == cfg.kind
      modifies this, counter
      ensures View() == PoppedAll(cfg, old(View()))
    {
      ghost var s := View();
      var n := UpperBoundOf(runtime.now);
      while n > 0
        invariant Linked(View()) && n == Expired(timers, runtime.now)
        invariant PoppedAll(cfg, View()) == PoppedAll(cfg, s)
        invariant counter.kind == cfg.kind
      {
        PopFirst();
        n := n - 1;
      }
    }

    method PopFirst()
      requires Linked(View()) && timers != [] && counter.kind == cfg.kind
      modifies this, counter
      ensures View() == Popped(cfg, old(View()))
    {
      ghost var s := View();
      ChargedLinked(cfg, s, 0);
      var e := timers[0];
      var valid, p := ReduceLifetimeOf(0);
      if valid {
        // the timer callback receives the packet here
        log := log + [Passed(e.id, e.timer.expiry, runtime.now, slots[p].packet)];
      }
      Release(0, Flushed);
      timers := Without(timers, 0);
    }

    /** One round of the runtime's trigger loop; between two of them others may use the buffer. */
    method RunDue()
      requires Valid()
      modifies this, runtime, counter
      ensures Valid() && View() == DueRun(cfg, old(View()))
    {
      ghost var s := View();
      if runtime.queue != [] && runtime.queue[0].deadline <= runtime.now {
        var top := runtime.queue[0];
        runtime.queue := runtime.queue[1..];
        if top.scope == cfg.self {
          Flush();
        }
      }
      DueRunInvariant(cfg, s, View());
    }

    /**
     * The runtime is triggered: due callbacks run one after the other. Callbacks of other owners do
     * not touch this buffer. The loop ends because a flush never schedules a due successor.
     */
    method Trigger(tp: Time)
      requires Valid() && tp >= runtime.now
      modifies this, runtime, counter
      ensures Valid() && View() == Triggered(cfg, old(View()), tp)
      ensures NothingExpired(View()) <==>
              old(timers == [] || timers[0].timer.expiry > tp || Pending(runtime.queue, cfg.self)[0] <= tp)
    {
      ghost var s := View();
      ghost var r := Triggered(cfg, s, tp);
      TriggeredInvariant(cfg, s, tp, r);
      LateQueue(cfg, s, tp, r);
      runtime.now := tp;
      RunAllDue(s, tp, r);
    }

    /** The trigger loop, after the clock has moved on. */
    method RunAllDue(ghost s: Buffer, tp: Time, ghost r: Buffer)
      requires Invariant(cfg, s) && r == Triggered(cfg, s, tp) && Late(r.queue, tp) && counter.kind == cfg.kind
      requires View() == s.(now := tp)
      modifies this, runtime, counter
      ensures View() == r
    {
      ghost var flushed, i := false, 0;
      HalfwayStart(cfg, s, tp, r);
      while runtime.queue != [] && runtime.queue[0].deadline <= runtime.now
        invariant Halfway(cfg, s, tp, r, i, flushed, View())
        invariant counter.kind == cfg.kind && runtime.now == tp
        decreases UpperBound(s.queue, tp) - i
      {
        flushed := RunNext(s, tp, r, i, flushed);
        i := i + 1;
      }
      HalfwayDone(cfg, s, tp, r, i, flushed, View());
    }

    /** The first callback of the queue runs, as the i-th due one of this trigger. */
    method RunNext(ghost s: Buffer, tp: Time, ghost r: Buffer, ghost i: nat, ghost before: bool)
      returns (ghost flushed: bool)
      requires Invariant(cfg, s) && r == Triggered(cfg, s, tp) && Late(r.queue, tp) && counter.kind == cfg.kind
      requires Halfway(cfg, s, tp, r, i, before, View()) && runtime.now == tp
      requires runtime.queue != [] && runtime.queue[0].deadline <= tp
      modifies this, runtime, counter
      ensures i < UpperBound(s.queue, tp) && Halfway(cfg, s, tp, r, i + 1, flushed, View())
      ensures counter.kind == cfg.kind && runtime.now == tp
    {
      HalfwayHead(cfg, s, tp, r, i, before, View());
      var top := runtime.queue[0];
      runtime.queue := runtime.queue[1..];
      flushed := before;
      if top.scope == cfg.self {
        FlushEarly(cfg, s, tp, i + 1, r, View());
        Flush();
        flushed := true;
      }
    }
  }
}
