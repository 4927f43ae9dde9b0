/**
 * The fully meshed transmit rate control machine: channel loads of the last five seconds decide
 * between Relaxed, five Active sub-states and Restrictive, up after one and down after five seconds.
 */
module FullyMeshed {
  import opened UnitIntervals

  type Load = UnitInterval

  const SAMPLES_UP := 10
  const SAMPLES_DOWN := 50
  const MIN_LOAD: real := 0.19
  const MAX_LOAD: real := 0.59
  const SUBSTATES := 5

  datatype Mode = Relaxed | Active | Restrictive

  /** Loads are kept newest first. */
  datatype State = State(mode: Mode, substate: nat, loads: seq<Load>)

  function Initial(): State {
    State(Relaxed, 0, [])
  }

  // ---------------------------------------------------------------- specification

  function Count(loads: seq<Load>, n: nat): (r: nat)
    ensures r <= |loads| && r <= n && (r == n || r == |loads|)
  {
    if |loads| < n then |loads| else n
  }

  /** The least of the n newest loads; 0 if there is none. */
  function Least(s: seq<Load>, n: nat): (m: Load)
    requires n <= |s|
    ensures if n == 0 then m == 0.0 else exists i :: 0 <= i < n && m == s[i]
    ensures forall i :: 0 <= i < n ==> m <= s[i]
  {
    if n == 0 then 0.0
    else if n == 1 then s[0]
    else
      var m := Least(s, n - 1);
      if s[n - 1] < m then s[n - 1] else m
  }

  /** The greatest of the n newest loads; 0 if there is none. */
  function Greatest(s: seq<Load>, n: nat): (m: Load)
    requires n <= |s|
    ensures m == 0.0 || exists i :: 0 <= i < n && m == s[i]
    ensures forall i :: 0 <= i < n ==> s[i] <= m
  {
    if n == 0 then 0.0
    else
      var m := Greatest(s, n - 1);
      if s[n - 1] > m then s[n - 1] else m
  }

  function MinLoad(loads: seq<Load>): Load {
    Least(loads, Count(loads, SAMPLES_UP))
  }

  function MaxLoad(loads: seq<Load>): Load {
    Greatest(loads, Count(loads, SAMPLES_DOWN))
  }

  function Threshold(i: nat): real
    requires i < SUBSTATES
  {
    [0.27, 0.35, 0.43, 0.51, 0.59][i]
  }

  /** How many of the thresholds from the i-th on are not above x. */
  function Reached(x: real, i: nat): nat
    requires i <= SUBSTATES
    decreases SUBSTATES - i
  {
    if i == SUBSTATES then 0 else (if Threshold(i) <= x then 1 else 0) + Reached(x, i + 1)
  }

  function Substate(max: real): nat {
    var reached := Reached(max, 0);
    if reached < SUBSTATES then reached else SUBSTATES - 1
  }

  /** The buffer holds as many samples as are needed for cooling down. */
  function Pushed(loads: seq<Load>, load: Load): (r: seq<Load>)
    ensures |r| == Count([load] + loads, SAMPLES_DOWN) && r[0] == load
    ensures forall i, j :: 0 <= i < j < |r| && j == i + 1 ==> i < |loads| && r[j] == loads[i]
  {
    ([load] + loads)[..Count([load] + loads, SAMPLES_DOWN)]
  }

  function NextMode(mode: Mode, loads: seq<Load>): Mode {
    match mode
    case Relaxed => if MinLoad(loads) >= MIN_LOAD then Active else Relaxed
    case Restrictive => if MaxLoad(loads) < MAX_LOAD then Active else Restrictive
    case Active =>
      if MaxLoad(loads) < MIN_LOAD then Relaxed else if MinLoad(loads) >= MAX_LOAD then Restrictive else Active
  }

  function Updated(s: State, load: Load): State {
    var loads := Pushed(s.loads, load);
    var mode := NextMode(s.mode, loads);
    State(mode, if mode == Active then Substate(MaxLoad(loads)) else s.substate, loads)
  }

  /** The state after a run of updates. */
  function Run(s: State, loads: seq<Load>): State {
    if loads == [] then s else Updated(Run(s, loads[..|loads| - 1]), loads[|loads| - 1])
  }

  // ---------------------------------------------------------------- minimum and maximum

  lemma {:induction false} MinBelowMax(loads: seq<Load>)
    ensures MinLoad(loads) <= MaxLoad(loads)
  {
    if loads != [] {
      assert MinLoad(loads) <= loads[0] <= MaxLoad(loads);
    }
  }

  lemma {:induction false} ReachedMonotone(x: real, y: real, i: nat)
    requires x <= y && i <= SUBSTATES
    ensures Reached(x, i) <= Reached(y, i) <= SUBSTATES - i
    decreases SUBSTATES - i
  {
    if i < SUBSTATES {
      ReachedMonotone(x, y, i + 1);
    }
  }

  // ---------------------------------------------------------------- convergence

  predicate High(x: Load) {
    x >= MAX_LOAD
  }

  predicate Low(x: Load) {
    x < MIN_LOAD
  }

  ghost predicate AllHigh(loads: seq<Load>) {
    forall i :: 0 <= i < |loads| ==> High(loads[i])
  }

  ghost predicate AllLow(loads: seq<Load>) {
    forall i :: 0 <= i < |loads| ==> Low(loads[i])
  }

  /** What k high loads in a row have brought about. */
  ghost predicate Climbed(s: State, k: nat) {
    && (forall i :: 0 <= i < k && i < |s.loads| ==> High(s.loads[i]))
    && (k >= SAMPLES_UP ==> s.mode != Relaxed)
    && (k > SAMPLES_UP ==> s.mode == Restrictive)
  }

  /** What k low loads in a row have brought about. */
  ghost predicate Cooled(s: State, k: nat) {
    && (forall i :: 0 <= i < k && i < |s.loads| ==> Low(s.loads[i]))
    && (k >= SAMPLES_DOWN ==> s.mode != Restrictive)
    && (k > SAMPLES_DOWN ==> s.mode == Relaxed)
  }

  lemma {:induction false} ClimbStep(s: State, load: Load, k: nat, n: nat, r: State)
    requires Climbed(s, k) && High(load) && n == k + 1 && r == Updated(s, load)
    ensures Climbed(r, n)
    ensures s.mode == Restrictive ==> r.mode == Restrictive
  {
    assert r.loads[0] == load;
    forall i | 0 <= i < n && i < |r.loads| ensures High(r.loads[i]) {
      assert i == 0 || r.loads[i] == s.loads[i - 1];
    }
  }

  lemma {:induction false} CoolStep(s: State, load: Load, k: nat, n: nat, r: State)
    requires Cooled(s, k) && Low(load) && n == k + 1 && r == Updated(s, load)
    ensures Cooled(r, n)
    ensures s.mode == Relaxed ==> r.mode == Relaxed
  {
    assert r.loads[0] == load;
    forall i | 0 <= i < n && i < |r.loads| ensures Low(r.loads[i]) {
      assert i == 0 || r.loads[i] == s.loads[i - 1];
    }
  }

  lemma {:induction false} LastCut(history: seq<Load>, loads: seq<Load>, n: nat)
    requires |loads| == n + 1
    ensures history + loads == (history + loads[..n]) + [loads[n]]
  {
  }

  lemma {:induction false} RunStep(before: seq<Load>, load: Load, all: seq<Load>)
    requires all == before + [load]
    ensures Run(Initial(), all) == Updated(Run(Initial(), before), load)
  {
    assert all[..|all| - 1] == before;
  }

  lemma {:induction false} RunSnoc(history: seq<Load>, loads: seq<Load>, n: nat)
    requires |loads| == n + 1
    ensures Run(Initial(), history + loads) == Updated(Run(Initial(), history + loads[..n]), loads[n])
  {
    LastCut(history, loads, n);
    RunStep(history + loads[..n], loads[n], history + loads);
  }

  lemma {:induction false} Climbs(history: seq<Load>, loads: seq<Load>)
    requires AllHigh(loads)
    ensures Climbed(Run(Initial(), history + loads), |loads|)
    ensures Run(Initial(), history).mode == Restrictive ==> Run(Initial(), history + loads).mode == Restrictive
    decreases |loads|
  {
    if loads == [] {
      assert history + loads == history;
    } else {
      var n := |loads| - 1;
      Climbs(history, loads[..n]);
      RunSnoc(history, loads, n);
      ClimbStep(Run(Initial(), history + loads[..n]), loads[n], n, |loads|, Run(Initial(), history + loads));
    }
  }

  lemma {:induction false} Cools(history: seq<Load>, loads: seq<Load>)
    requires AllLow(loads)
    ensures Cooled(Run(Initial(), history + loads), |loads|)
    ensures Run(Initial(), history).mode == Relaxed ==> Run(Initial(), history + loads).mode == Relaxed
    decreases |loads|
  {
    if loads == [] {
      assert history + loads == history;
    } else {
      var n := |loads| - 1;
      Cools(history, loads[..n]);
      RunSnoc(history, loads, n);
      CoolStep(Run(Initial(), history + loads[..n]), loads[n], n, |loads|, Run(Initial(), history + loads));
    }
  }

  /**
   * Whatever the machine has seen before, it is Restrictive after eleven or more high loads in a row
   * and Relaxed after fifty-one or more low ones; neither mode is left while such loads go on.
   */
  lemma {:induction false} Converges(history: seq<Load>, loads: seq<Load>)
    ensures AllHigh(loads) && (|loads| > SAMPLES_UP || Run(Initial(), history).mode == Restrictive)
            ==> Run(Initial(), history + loads).mode == Restrictive
    ensures AllLow(loads) && (|loads| > SAMPLES_DOWN || Run(Initial(), history).mode == Relaxed)
            ==> Run(Initial(), history + loads).mode == Relaxed
  {
    if AllHigh(loads) {
      Climbs(history, loads);
    }
    if AllLow(loads) {
      Cools(history, loads);
    }
  }

  /** After every update the mode fits the loads, and the sub-state is that of the greatest load. */
  lemma {:induction false} ModeFitsLoads(history: seq<Load>)
    requires history != []
    ensures var s := Run(Initial(), history);
            && s.loads != [] && s.loads[0] == history[|history| - 1]
            && (s.mode == Relaxed ==> MinLoad(s.loads) < MIN_LOAD)
            && (s.mode == Restrictive ==> MaxLoad(s.loads) >= MAX_LOAD)
            && (s.mode == Active ==> s.substate == Substate(MaxLoad(s.loads)) < SUBSTATES)
  {
    var s := Run(Initial(), history);
    MinBelowMax(s.loads);
    ReachedMonotone(MaxLoad(s.loads), MaxLoad(s.loads), 0);
    var before := Run(Initial(), history[..|history| - 1]);
    if before.mode == Active && s.mode == Restrictive {
      assert MinLoad(s.loads) >= MAX_LOAD;
    }
  }

  // ---------------------------------------------------------------- exact transitions

  /** The last fifty loads, newest first. */
  ghost predicate Latest(loads: seq<Load>, history: seq<Load>) {
    && |loads| == (if |history| < SAMPLES_DOWN then |history| else SAMPLES_DOWN)
    && forall i :: 0 <= i < |loads| ==> loads[i] == history[|history| - 1 - i]
  }

  lemma {:induction false} LatestStep(history: seq<Load>, n: nat, loads: seq<Load>, r: seq<Load>)
    requires |history| == n + 1 && Latest(loads, history[..n]) && r == Pushed(loads, history[n])
    ensures Latest(r, history)
  {
    forall i | 0 <= i < |r| ensures r[i] == history[n - i] {
      assert i > 0 ==> r[i] == loads[i - 1] == history[..n][n - i];
    }
  }

  lemma {:induction false} LoadsAreLatest(history: seq<Load>, s: State)
    requires s == Run(Initial(), history)
    ensures Latest(s.loads, history)
    decreases |history|
  {
    if history != [] {
      var n := |history| - 1;
      var before := Run(Initial(), history[..n]);
      LoadsAreLatest(history[..n], before);
      LatestStep(history, n, before.loads, s.loads);
    }
  }

  /** The last loads, at most n of them, are all at least x. */
  ghost predicate AllFrom(history: seq<Load>, n: nat, x: real) {
    forall i :: |history| - n <= i < |history| && 0 <= i ==> history[i] >= x
  }

  /** The last loads, at most n of them, are all below x. */
  ghost predicate AllBelow(history: seq<Load>, n: nat, x: real) {
    forall i :: |history| - n <= i < |history| && 0 <= i ==> history[i] < x
  }

  lemma {:induction false} LeastIs(loads: seq<Load>, n: nat, x: real)
    requires 0 < n <= |loads|
    ensures Least(loads, n) >= x <==> forall i :: 0 <= i < n ==> loads[i] >= x
  {
  }

  lemma {:induction false} GreatestIs(loads: seq<Load>, n: nat, x: real)
    requires 0 < n <= |loads| && x > 0.0
    ensures Greatest(loads, n) < x <==> forall i :: 0 <= i < n ==> loads[i] < x
  {
  }

  lemma {:induction false} MinIsAllFrom(history: seq<Load>, loads: seq<Load>, x: real)
    requires history != [] && loads == Run(Initial(), history).loads
    ensures MinLoad(loads) >= x <==> AllFrom(history, SAMPLES_UP, x)
  {
    LoadsAreLatest(history, Run(Initial(), history));
    var n := Count(loads, SAMPLES_UP);
    LeastIs(loads, n, x);
    if MinLoad(loads) >= x {
      forall i | |history| - SAMPLES_UP <= i < |history| && 0 <= i ensures history[i] >= x {
        assert loads[|history| - 1 - i] >= x;
      }
    }
  }

  lemma {:induction false} MaxIsAllBelow(history: seq<Load>, loads: seq<Load>, x: real)
    requires history != [] && loads == Run(Initial(), history).loads && x > 0.0
    ensures MaxLoad(loads) < x <==> AllBelow(history, SAMPLES_DOWN, x)
  {
    LoadsAreLatest(history, Run(Initial(), history));
    var n := Count(loads, SAMPLES_DOWN);
    GreatestIs(loads, n, x);
    if MaxLoad(loads) < x {
      forall i | |history| - SAMPLES_DOWN <= i < |history| && 0 <= i ensures history[i] < x {
        assert loads[|history| - 1 - i] < x;
      }
    }
  }

  /**
   * Each mode is left exactly when the last second or the last five seconds demand it: Relaxed after ten
   * loads of at least 0.19, Restrictive after fifty below 0.59, Active upwards after ten of at least 0.59
   * and downwards after fifty below 0.19 (or as many as there are).
   */
  lemma {:induction false} ModeChanges(history: seq<Load>, n: nat, before: Mode, after: Mode)
    requires |history| == n + 1
    requires before == Run(Initial(), history[..n]).mode && after == Run(Initial(), history).mode
    ensures before == Relaxed ==> after == if AllFrom(history, 10, 0.19) then Active else Relaxed
    ensures before == Restrictive ==> after == if AllBelow(history, 50, 0.59) then Active else Restrictive
    ensures before == Active ==>
              after == if AllBelow(history, 50, 0.19) then Relaxed
                       else if AllFrom(history, 10, 0.59) then Restrictive else Active
  {
    var loads := Run(Initial(), history).loads;
    MinIsAllFrom(history, loads, MIN_LOAD);
    MinIsAllFrom(history, loads, MAX_LOAD);
    MaxIsAllBelow(history, loads, MIN_LOAD);
    MaxIsAllBelow(history, loads, MAX_LOAD);
  }

  /** The sub-states are the bands between the thresholds, the last one open at its upper end. */
  lemma {:induction false} SubstateIsBand(x: real)
    ensures Substate(x) == if x < 0.27 then 0 else if x < 0.35 then 1
                           else if x < 0.43 then 2 else if x < 0.51 then 3 else 4
  {
    assert Reached(x, 5) == 0;
    assert Reached(x, 4) == if 0.59 <= x then 1 else 0;
    assert Reached(x, 3) == (if 0.51 <= x then 1 else 0) + Reached(x, 4);
    assert Reached(x, 2) == (if 0.43 <= x then 1 else 0) + Reached(x, 3);
    assert Reached(x, 1) == (if 0.35 <= x then 1 else 0) + Reached(x, 2);
  }

  // ---------------------------------------------------------------- the bounds are sharp

  function Constant(load: Load, n: nat): (r: seq<Load>)
    ensures |r| == n && forall i :: 0 <= i < n ==> r[i] == load
  {
    seq(n, _ => load)
  }

  lemma {:induction false} ConstantStep(history: seq<Load>, load: Load, n: nat, m: nat)
    requires m == n + 1
    ensures Run(Initial(), history + Constant(load, m)) == Updated(Run(Initial(), history + Constant(load, n)), load)
  {
    assert Constant(load, m)[..n] == Constant(load, n);
    RunSnoc(history, Constant(load, m), n);
  }

  /** The state after n updates with the same load. */
  function Repeated(s: State, load: Load, n: nat): State {
    if n == 0 then s else Updated(Repeated(s, load, n - 1), load)
  }

  lemma {:induction false} RunRepeated(history: seq<Load>, load: Load, n: nat, s: State)
    requires s == Run(Initial(), history)
    ensures Run(Initial(), history + Constant(load, n)) == Repeated(s, load, n)
  {
    if n == 0 {
      assert history + Constant(load, n) == history;
    } else {
      RunRepeated(history, load, n - 1, s);
      ConstantStep(history, load, n - 1, n);
    }
  }

  /** Relaxed, with a low load n places back as the oldest one. */
  ghost predicate Idles(s: State, n: nat) {
    s.mode == Relaxed && |s.loads| == n + 1 && Low(s.loads[n])
  }

  lemma {:induction false} StaysRelaxed(s: State, load: Load, m: nat, n: nat, r: State)
    requires n == m + 1 < SAMPLES_UP && Idles(s, m) && r == Updated(s, load)
    ensures Idles(r, n)
  {
    assert r.loads[n] == s.loads[m];
  }

  lemma {:induction false} StillRelaxed(s: State, load: Load, n: nat, r: State)
    requires n < SAMPLES_UP && Idles(s, 0) && r == Repeated(s, load, n)
    ensures Idles(r, n)
  {
    if n > 0 {
      var (m, before) := (n - 1, Repeated(s, load, n - 1));
      StillRelaxed(s, load, m, before);
      StaysRelaxed(before, load, m, n, r);
    }
  }

  /** Restrictive, with a high load n places back. */
  ghost predicate Lingers(s: State, n: nat) {
    s.mode == Restrictive && |s.loads| > n && High(s.loads[n])
  }

  lemma {:induction false} StaysRestrictive(s: State, load: Load, m: nat, n: nat, r: State)
    requires n == m + 1 < SAMPLES_DOWN && Lingers(s, m) && r == Updated(s, load)
    ensures Lingers(r, n)
  {
    assert r.loads[n] == s.loads[m];
  }

  lemma {:induction false} StillRestrictive(s: State, load: Load, n: nat, r: State)
    requires n < SAMPLES_DOWN && Lingers(s, 0) && r == Repeated(s, load, n)
    ensures Lingers(r, n)
  {
    if n > 0 {
      var (m, before) := (n - 1, Repeated(s, load, n - 1));
      StillRestrictive(s, load, m, before);
      StaysRestrictive(before, load, m, n, r);
    }
  }

  lemma {:induction false} RunOne(load: Load)
    ensures Run(Initial(), [load]) == Updated(Initial(), load)
  {
    assert [load][..0] == [];
  }

  /** One low load before, and ten high loads of whatever height are not enough. */
  lemma {:induction false} ClimbIsSharp(low: Load, high: Load, n: nat)
    requires Low(low) && High(high) && n == SAMPLES_UP
    ensures Run(Initial(), [low] + Constant(high, n)).mode == Active
  {
    RunOne(low);
    var s := Run(Initial(), [low]);
    StillRelaxed(s, high, n - 1, Repeated(s, high, n - 1));
    RunRepeated([low], high, n, s);
    Climbs([low], Constant(high, n));
    LeavesGradually(Repeated(s, high, n - 1), high, Repeated(s, high, n));
  }

  /** Two high loads before, and fifty low loads are not enough. */
  lemma {:induction false} CoolingIsSharp(low: Load, high: Load, n: nat)
    requires Low(low) && High(high) && n == SAMPLES_DOWN
    ensures Run(Initial(), [high, high] + Constant(low, n)).mode == Active
  {
    RunTwo(high);
    var s := Run(Initial(), [high, high]);
    StillRestrictive(s, low, n - 1, Repeated(s, low, n - 1));
    RunRepeated([high, high], low, n, s);
    Cools([high, high], Constant(low, n));
    LeavesGradually(Repeated(s, low, n - 1), low, Repeated(s, low, n));
  }

  lemma {:induction false} RunTwo(high: Load)
    requires High(high)
    ensures Lingers(Run(Initial(), [high, high]), 0)
  {
    RunOne(high);
    RunStep([high], high, [high, high]);
  }

  lemma {:induction false} LeavesGradually(s: State, load: Load, r: State)
    requires r == Updated(s, load)
    ensures s.mode == Relaxed ==> r.mode != Restrictive
    ensures s.mode == Restrictive ==> r.mode != Relaxed
  {
  }

  // ---------------------------------------------------------------- the machine

  lemma {:induction false} NoneReached(x: real, i: nat)
    requires i <= SUBSTATES && (i < SUBSTATES ==> x < Threshold(i))
    ensures Reached(x, i) == 0
    decreases SUBSTATES - i
  {
    if i < SUBSTATES {
      NoneReached(x, i + 1);
    }
  }

  class StateMachine {
    var mode: Mode
    var substate: nat
    var loads: seq<Load>

    ghost function View(): State
      reads this
    {
      State(mode, substate, loads)
    }

    constructor ()
      ensures View() == Initial()
    {
      mode, substate, loads := Relaxed, 0, [];
    }

    method Update(load: Load)
      modifies this
      ensures View() == Updated(old(View()), load)
    {
      PushFront(load);
      var min := MinChannelLoad();
      var max := MaxChannelLoad();
      MinBelowMax(loads);
      if mode == Relaxed {
        if min >= MIN_LOAD {
          mode := Active;
          UpdateActive(min, max);
        }
      } else if mode == Restrictive {
        if max < MAX_LOAD {
          mode := Active;
          UpdateActive(min, max);
        }
      } else {
        if max < MIN_LOAD {
          mode := Relaxed;
        } else if min >= MAX_LOAD {
          mode := Restrictive;
        } else {
          mode := Active;
          UpdateActive(min, max);
        }
      }
    }

    method PushFront(load: Load)
      modifies `loads
      ensures loads == Pushed(old(loads), load)
    {
      loads := [load] + loads;
      if |loads| > SAMPLES_DOWN {
        loads := loads[..SAMPLES_DOWN];
      }
    }

    /** Both loads are looked up, but the sub-state follows the greater one. */
    method UpdateActive(min: Load, max: Load)
      requires min <= max
      modifies `substate
      ensures substate == Substate(max)
    {
      var up := UpperBound(min);
      var down := UpperBound(max);
      substate := if up > down then up else down;
      substate := if SUBSTATES - 1 < substate then SUBSTATES - 1 else substate;
      ReachedMonotone(min, max, 0);
    }

    /** The number of thresholds that are not above x. */
    method UpperBound(x: real) returns (i: nat)
      ensures i == Reached(x, 0)
    {
      i := 0;
      while i < SUBSTATES && Threshold(i) <= x
        invariant i <= SUBSTATES && Reached(x, 0) == i + Reached(x, i)
      {
        i := i + 1;
      }
      NoneReached(x, i);
    }

    method MinChannelLoad() returns (min: Load)
      ensures min == MinLoad(loads)
    {
      // `found` is false as long as the minimum is still infinite
      var found := false;
      min := 0.0;
      var count := 0;
      while count < |loads| && count < SAMPLES_UP
        invariant 0 <= count <= Count(loads, SAMPLES_UP)
        invariant found == (count > 0) && min == Least(loads, count)
      {
        if !found || loads[count] < min {
          found, min := true, loads[count];
        }
        count := count + 1;
      }
    }

    method MaxChannelLoad() returns (max: Load)
      ensures max == MaxLoad(loads)
    {
      max := 0.0;
      var count := 0;
      while count < |loads| && count < SAMPLES_DOWN
        invariant 0 <= count <= Count(loads, SAMPLES_DOWN)
        invariant max == Greatest(loads, count)
      {
        if loads[count] > max {
          max := loads[count];
        }
        count := count + 1;
      }
    }
  }
}
