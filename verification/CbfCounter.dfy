/**
 * Duplicate packet counters used by the contention buffer.
 *
 * Immortal counters never expire; contending counters are forgotten when their packet leaves the
 * buffer.
 */
module CbfCounter {
  /** Source address and sequence number of a packet. */
  datatype Identifier = Identifier(source: nat, sequenceNumber: nat)

  datatype Kind = Immortal | Contending

  type Counters = map<Identifier, nat>

  /** Counter value as seen by callers: 0 for an unknown packet. */
  function Value(m: Counters, id: Identifier): nat {
    if id in m then m[id] else 0
  }

  function OnAdd(kind: Kind, m: Counters, id: Identifier): Counters {
    if kind.Contending? then m[id := 1] else m[id := Value(m, id) + 1]
  }

  function OnRemove(kind: Kind, m: Counters, id: Identifier): Counters {
    if kind.Contending? then m - {id} else m
  }

  function OnIncrement(m: Counters, id: Identifier): Counters {
    m[id := Value(m, id) + 1]
  }

  class CounterTable {
    const kind: Kind
    var counters: Counters

    constructor (kind: Kind)
      ensures this.kind == kind && counters == map[]
    {
      this.kind := kind;
      counters := map[];
    }

    method Add(id: Identifier)
      modifies this
      ensures counters == OnAdd(kind, old(counters), id)
    {
      if kind.Contending? {
        counters := counters[id := 1];
      } else {
        Increment(id);
      }
    }

    method Remove(id: Identifier)
      modifies this
      ensures counters == OnRemove(kind, old(counters), id)
    {
      if kind.Contending? {
        counters := counters - {id};
      }
    }

    method Increment(id: Identifier)
      modifies this
      ensures counters == OnIncrement(old(counters), id)
    {
      if id !in counters {
        counters := counters[id := 0];
      }
      counters := counters[id := counters[id] + 1];
    }

    method Counter(id: Identifier) returns (count: nat)
      ensures count == Value(counters, id)
    {
      count := 0;
      if id in counters {
        count := counters[id];
      }
    }
  }
}
