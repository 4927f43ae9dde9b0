/**
 * The memory of previously seen broadcast packets: a queue of identifiers with a second, hashed index on
 * the same container.
 */
module GbcMemory {
  import opened Sequences
  import opened CbfCounter
  import opened Recency
  import opened Resizing

  /**
   * After any history at a fixed capacity c, a packet counts as known exactly if it was remembered
   * before and fewer than c other packets have been remembered since.
   */
  lemma {:induction false} RemembersRecentPackets(c: nat, history: seq<Identifier>, id: Identifier)
    requires c > 0
    ensures id in TouchedAll([], c, history) <==>
            Used(history, id) && |UsedSince(history, id)| < c
  {
    MemoryHoldsLatest(c, history);
    KnownIffRecent(TouchedAll([], c, history), history, c, id);
  }

  class Memory {
    var capacity: nat
    var identifiers: seq<Identifier>

    /** All that has happened: packets remembered and capacities set. */
    ghost var events: seq<Event<Identifier>>

    ghost predicate Valid()
      reads this
    {
      && 0 < capacity && |identifiers| <= capacity && Distinct(identifiers)
      && capacity == CapacityAfter(events) && identifiers == Remembered(events)
    }

    constructor ()
      ensures Valid() && capacity == 1 && identifiers == [] && events == []
    {
      capacity, identifiers, events := 1, [], [];
    }

    /** Forget the oldest identifiers beyond the new limit; a limit of zero counts as one. */
    method SetCapacity(num: nat)
      requires Valid()
      modifies this
      ensures Valid() && capacity == (if num < 1 then 1 else num) && events == old(events) + [Resize(num)]
      ensures identifiers == Trimmed(old(identifiers), capacity)
    {
      capacity := if num < 1 then 1 else num;
      Happen(Resize(num));
      ghost var n := 0;
      while |identifiers| > capacity
        invariant n <= |old(identifiers)| && identifiers == old(identifiers)[n..]
        invariant n == 0 || |identifiers| >= capacity
        invariant capacity == (if num < 1 then 1 else num) && events == old(events) + [Resize(num)]
      {
        identifiers := identifiers[1..];
        n := n + 1;
      }
    }

    ghost method Happen(e: Event<Identifier>)
      modifies this`events
      ensures events == old(events) + [e]
      ensures CapacityAfter(events) == if e.Resize? then AtLeastOne(e.capacity) else old(CapacityAfter(events))
      ensures Remembered(events)
           == if e.Use? then Touched(old(Remembered(events)), old(CapacityAfter(events)), e.item)
              else Trimmed(old(Remembered(events)), AtLeastOne(e.capacity))
      ensures |Remembered(events)| <= CapacityAfter(events) && Distinct(Remembered(events))
    {
      EventsAppend(events, e, events + [e]);
      RememberedIsRecent(events + [e]);
      events := events + [e];
    }

    method Size() returns (n: nat)
      requires Valid()
      ensures n == |identifiers| <= capacity
    {
      n := |identifiers|;
    }

    method Find(id: Identifier) returns (k: nat)
      ensures k == IndexOf(identifiers, id)
    {
      k := 0;
      while k < |identifiers| && identifiers[k] != id
        invariant 0 <= k <= |identifiers|
        invariant forall i :: 0 <= i < k ==> identifiers[i] != id
      {
        k := k + 1;
      }
    }

    method Remember(id: Identifier) returns (known: bool)
      requires Valid()
      modifies this`identifiers, this`events
      ensures Valid() && events == old(events) + [Use(id)]
      ensures identifiers == Touched(old(identifiers), capacity, id)
      ensures known <==> id in old(identifiers)
      ensures known <==> NeverCrowdedOut(old(events), id)
    {
      KnownIffNeverCrowdedOut(events, id);
      known := Touch(id);
      Happen(Use(id));
    }

    method Touch(id: Identifier) returns (known: bool)
      requires 0 < capacity
      modifies this`identifiers
      ensures identifiers == Touched(old(identifiers), capacity, id)
      ensures known <==> id in old(identifiers)
    {
      var k := Find(id);
      if k == |identifiers| {
        ghost var n := 0;
        while identifiers != [] && |identifiers| >= capacity
          invariant n <= |old(identifiers)| && identifiers == old(identifiers)[n..]
          invariant n == 0 || |identifiers| >= capacity - 1
        {
          identifiers := identifiers[1..];
          n := n + 1;
        }
        identifiers := identifiers + [id];
        known := false;
      } else {
        identifiers := Without(identifiers, k) + [id];
        known := true;
      }
    }

    method Knows(id: Identifier) returns (known: bool)
      ensures known <==> id in identifiers
      ensures Valid() ==> (known <==> NeverCrowdedOut(events, id))
    {
      KnownIffNeverCrowdedOut(events, id);
      var k := Find(id);
      known := k < |identifiers|;
    }
  }
}
