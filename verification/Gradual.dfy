/**
 * The gradual transmit rate control machine: it moves at most one state per update, towards the state
 * whose range of channel loads holds the current load.
 */
module Gradual {
  import opened UnitIntervals

  type Load = UnitInterval

  datatype State = State(lowerLimit: Load, offTime: int)

  /** A set of states ordered by lower limit, no two of them equivalent. */
  predicate Sorted(states: seq<State>) {
    forall i, j :: 0 <= i < j < |states| ==> states[i].lowerLimit < states[j].lowerLimit
  }

  function Repaired(states: seq<State>): (r: seq<State>)
    ensures states != [] ==> r == states
    ensures states == [] ==> |r| == 1 && r[0].lowerLimit == 0.0 && r[0].offTime == 0
  {
    if states == [] then [State(0.0, 0)] else states
  }

  /** The state after an update. */
  function Moved(states: seq<State>, current: nat, load: Load): nat
    requires current < |states|
  {
    if load < states[current].lowerLimit then
      if current != 0 then current - 1 else current
    else if current + 1 != |states| && load >= states[current + 1].lowerLimit then current + 1
    else current
  }

  /** The load is in the range of a state; the first state also takes what is below its limit. */
  predicate Matches(states: seq<State>, i: nat, load: Load) {
    && i < |states|
    && (i == 0 || states[i].lowerLimit <= load)
    && (i + 1 == |states| || load < states[i + 1].lowerLimit)
  }

  /** The last state up to the n-th whose limit the load reaches; the first if there is none. */
  function Band(states: seq<State>, load: Load, n: nat): (i: nat)
    requires n < |states|
    ensures i <= n
  {
    if n == 0 || states[n].lowerLimit <= load then n else Band(states, load, n - 1)
  }

  lemma {:induction false} BandBelow(states: seq<State>, load: Load, n: nat)
    requires Sorted(states) && n < |states|
    ensures var i := Band(states, load, n);
            (i == 0 || states[i].lowerLimit <= load) && forall j :: i < j <= n ==> load < states[j].lowerLimit
  {
    if n > 0 && states[n].lowerLimit > load {
      BandBelow(states, load, n - 1);
    }
  }

  /** Exactly one state matches a load, and it is the only one in which the machine rests. */
  lemma {:induction false} OneMatch(states: seq<State>, load: Load, i: nat)
    requires Sorted(states) && i < |states|
    ensures Matches(states, i, load) <==> i == Band(states, load, |states| - 1)
    ensures Moved(states, i, load) == i <==> Matches(states, i, load)
  {
    var b := Band(states, load, |states| - 1);
    BandBelow(states, load, |states| - 1);
    if i < b {
      assert states[i + 1].lowerLimit <= states[b].lowerLimit;
    } else if b < i {
      assert load < states[i].lowerLimit;
    }
  }

  /** k steps from i towards b. */
  function Towards(i: nat, b: nat, k: nat): nat {
    if i <= b then (if b - i <= k then b else i + k) else (if i - b <= k then b else i - k)
  }

  function MovedMany(states: seq<State>, current: nat, loads: seq<Load>): (i: nat)
    requires current < |states|
    ensures i < |states|
  {
    if loads == [] then current
    else Moved(states, MovedMany(states, current, loads[..|loads| - 1]), loads[|loads| - 1])
  }

  lemma {:induction false} MovesTowards(states: seq<State>, i: nat, load: Load)
    requires Sorted(states) && i < |states|
    ensures Moved(states, i, load) == Towards(i, Band(states, load, |states| - 1), 1)
  {
    var b := Band(states, load, |states| - 1);
    BandBelow(states, load, |states| - 1);
    if i < b {
      assert states[i].lowerLimit < states[i + 1].lowerLimit;
      assert i + 1 == b || states[i + 1].lowerLimit < states[b].lowerLimit;
    } else if b < i {
      assert load < states[i].lowerLimit;
    }
  }

  /**
   * Loads of one band bring the machine from any state to the matching one in exactly as many updates
   * as there are states between, on the shortest way, and keep it there.
   */
  lemma {:induction false} Converges(states: seq<State>, start: nat, loads: seq<Load>, band: nat)
    requires Sorted(states) && start < |states| && band < |states|
    requires forall i :: 0 <= i < |loads| ==> Matches(states, band, loads[i])
    ensures MovedMany(states, start, loads) == Towards(start, band, |loads|)
    decreases |loads|
  {
    if loads != [] {
      var n := |loads| - 1;
      Converges(states, start, loads[..n], band);
      OneMatch(states, loads[n], band);
      MovesTowards(states, MovedMany(states, start, loads[..n]), loads[n]);
    }
  }

  class StateMachine {
    var states: seq<State>
    var current: nat

    ghost predicate Valid()
      reads this
    {
      Sorted(states) && current < |states|
    }

    constructor (given: seq<State>)
      requires Sorted(given)
      ensures Valid() && states == Repaired(given) && current == 0
    {
      states, current := given, 0;
      new;
      Repair();
    }

    method Repair()
      requires Sorted(states) && (states != [] ==> current < |states|)
      modifies this
      ensures Valid() && states == Repaired(old(states))
      ensures current == if old(states) == [] then 0 else old(current)
    {
      if states == [] {
        states := [State(0.0, 0)];
        current := 0;
      }
    }

    method Update(load: Load)
      requires Valid()
      modifies `current
      ensures Valid() && current == Moved(states, old(current), load)
      ensures current == Towards(old(current), Band(states, load, |states| - 1), 1)
    {
      MovesTowards(states, current, load);
      if load < states[current].lowerLimit {
        if current != 0 {
          current := current - 1;
        }
      } else {
        var up := current + 1;
        if up != |states| && load >= states[up].lowerLimit {
          current := up;
        }
      }
    }
  }
}
