/** The aggregator and its running totals. */
module CbrAggregator {
  import opened Sequences
  import opened CbrModel
  import opened Numbers

  class Unit {
    var n: nat
    var average: Load
    var largest: Load
    var second: Load

    ghost function View(): Totals
      reads this
    {
      Totals(n, average, largest, second)
    }

    constructor ()
      ensures View() == NoTotals()
    {
      n, average, largest, second := 0, 0.0, 0.0, 0.0;
    }

    method Add(cbr: Load)
      modifies this
      ensures View() == Counted(old(View()), cbr)
    {
      average := Average(n, average, cbr);
      n := n + 1;
      if cbr >= largest {
        second := largest;
        largest := cbr;
      } else if cbr > second {
        second := cbr;
      }
    }

    method Select(target: Load) returns (r: Load)
      ensures r == Chosen(View(), target)
    {
      if average > target {
        r := largest;
      } else {
        r := second;
      }
    }
  }

  /** The totals of the first n entries. */
  function Visited(entries: seq<Entry>, n: nat, lifetime: Timestamp, oneHop: bool): Totals
    requires n <= |entries|
  {
    CountedAll(Values(entries[..n], lifetime, oneHop))
  }

  function LoadOf(x: Extension, oneHop: bool): Load {
    if oneHop then x.local else x.neighbour
  }

  lemma {:induction false} NextVisited(entries: seq<Entry>, i: nat, j: nat, lifetime: Timestamp, oneHop: bool)
    requires i < |entries| && j == i + 1
    ensures Visited(entries, j, lifetime, oneHop)
         == if Fresh(entries[i], lifetime)
            then Counted(Visited(entries, i, lifetime, oneHop), LoadOf(entries[i].value, oneHop))
            else Visited(entries, i, lifetime, oneHop)
  {
    var before := Values(entries[..i], lifetime, oneHop);
    TakeLess(entries, i, j);
    ValuesSnoc(entries[..j], i, lifetime, oneHop);
    if Fresh(entries[i], lifetime) {
      CountedSnoc(before, LoadOf(entries[i].value, oneHop));
    } else {
      AddNothing(before);
    }
  }

  lemma {:induction false} CountedSnoc(values: seq<Load>, x: Load)
    ensures CountedAll(values + [x]) == Counted(CountedAll(values), x)
  {
    TakeInit(values, x);
  }

  class Aggregator {
    var local: Load
    var previousLocal: Load
    var oneHop: Load
    var twoHop: Load
    var global: Load

    ghost function View(): State
      reads this
    {
      State(local, previousLocal, oneHop, twoHop, global)
    }

    constructor ()
      ensures View() == Initial()
    {
      local, previousLocal, oneHop, twoHop, global := 0.0, 0.0, 0.0, 0.0, 0.0;
    }

    /** The entries are those of the location table in the order in which it happens to visit them. */
    method Aggregate(measured: Load, entries: seq<Entry>, lifetime: Timestamp, target: Load)
      modifies this
      ensures View() == Aggregated(old(View()), measured, entries, lifetime, target)
      ensures forall order :: multiset(order) == multiset(entries)
                ==> View() == Aggregated(old(View()), measured, order, lifetime, target)
    {
      previousLocal := local;
      local := measured;
      var one, two := Visit(entries, lifetime);
      oneHop := one.Select(target);
      twoHop := two.Select(target);
      global := Max(Max(previousLocal, oneHop), twoHop);
      forall order | multiset(order) == multiset(entries)
        ensures View() == Aggregated(old(View()), measured, order, lifetime, target) {
        OrderDoesNotMatter(old(View()), measured, entries, order, lifetime, target);
      }
    }

    /** The totals of the fresh entries, one and two hops away. */
    method Visit(entries: seq<Entry>, lifetime: Timestamp) returns (one: Unit, two: Unit)
      ensures one.View() == CountedAll(Values(entries, lifetime, true))
      ensures two.View() == CountedAll(Values(entries, lifetime, false))
    {
      one := new Unit();
      two := new Unit();
      var i := 0;
      while i < |entries|
        invariant 0 <= i <= |entries| && fresh(one) && fresh(two) && one != two
        invariant one.View() == Visited(entries, i, lifetime, true)
        invariant two.View() == Visited(entries, i, lifetime, false)
      {
        NextVisited(entries, i, i + 1, lifetime, true);
        NextVisited(entries, i, i + 1, lifetime, false);
        VisitOne(entries[i], lifetime, one, two);
        i := i + 1;
      }
      TakeAll(entries, i);
    }

    method VisitOne(entry: Entry, lifetime: Timestamp, one: Unit, two: Unit)
      requires one != two
      modifies one, two
      ensures one.View() ==
              if Fresh(entry, lifetime) then Counted(old(one.View()), entry.value.local) else old(one.View())
      ensures two.View() ==
              if Fresh(entry, lifetime) then Counted(old(two.View()), entry.value.neighbour) else old(two.View())
    {
      if Fresh(entry, lifetime) {
        one.Add(entry.value.local);
        two.Add(entry.value.neighbour);
      }
    }
  }
}
