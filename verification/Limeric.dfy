/**
 * LIMERIC adapted to ETSI ITS (section 5.4 of ETSI TS 102 687 v1.2.1): the permitted duty cycle is
 * driven towards a target channel load. Loads and duty cycles are real numbers in [0, 1].
 */
module Limeric {
  import opened Sequences
  import opened Numbers
  import opened UnitIntervals

  datatype Parameters = Parameters(
    alpha: UnitInterval,
    beta: UnitInterval,
    deltaMax: UnitInterval,
    deltaMin: UnitInterval,
    gPlusMax: real,
    gMinusMax: real,
    cbrTarget: UnitInterval)

  datatype DualAlpha = Off | On(alternateAlpha: UnitInterval, threshold: UnitInterval)

  /** Moving average channel load, the last two measurements and the permitted duty cycle. */
  datatype State = State(load: UnitInterval, cbr: seq<UnitInterval>, duty: UnitInterval)

  function AverageCbr(s: State): UnitInterval {
    if |s.cbr| == 2 then Clamp(0.5 * Mean(s.cbr) + 0.5 * s.load) else s.load
  }

  /** A measurement enters the two-element circular buffer. */
  function Measured(s: State, cbr: UnitInterval): State {
    if |s.cbr| >= 2 then s.(cbr := s.cbr[1..] + [cbr])
    else s.(cbr := s.cbr + [cbr], load := Mean(s.cbr + [cbr]))
  }

  /** The load-dependent part of the new duty cycle. */
  function Offset(p: Parameters, load: UnitInterval): real {
    var delta := p.cbrTarget - load;
    if delta > 0.0 then Min(Times(p.beta, delta), p.gPlusMax) else Max(Times(p.beta, delta), p.gMinusMax)
  }

  function Bounded(p: Parameters, x: real): real {
    Min(Max(x, p.deltaMin), p.deltaMax)
  }

  /** The new duty cycle, from what is kept of the old one and the offset. */
  function Response(p: Parameters, kept: real, offset: real): (r: UnitInterval)
    ensures r <= p.deltaMax
    ensures p.deltaMin <= p.deltaMax ==> p.deltaMin <= r
  {
    Bounded(p, Clamp(kept + offset))
  }

  /** With dual alpha, a duty cycle that would fall by more than the threshold falls faster. */
  predicate Switches(p: Parameters, dual: DualAlpha, load: UnitInterval, duty: UnitInterval) {
    dual.On? && Clamp(duty - Response(p, Times(1.0 - p.alpha, duty), Offset(p, load))) > dual.threshold
  }

  function AlphaFor(p: Parameters, dual: DualAlpha, load: UnitInterval, duty: UnitInterval): UnitInterval {
    if Switches(p, dual, load, duty) then dual.alternateAlpha else p.alpha
  }

  function DutyCycle(p: Parameters, dual: DualAlpha, load: UnitInterval, duty: UnitInterval): (r: UnitInterval)
    ensures r <= p.deltaMax
    ensures p.deltaMin <= p.deltaMax ==> p.deltaMin <= r
  {
    Response(p, Times(1.0 - AlphaFor(p, dual, load, duty), duty), Offset(p, load))
  }

  function Calculated(p: Parameters, dual: DualAlpha, s: State): State {
    s.(load := AverageCbr(s), duty := DutyCycle(p, dual, AverageCbr(s), s.duty))
  }

  class Controller {
    const p: Parameters
    var dual: DualAlpha
    var load: UnitInterval
    var cbr: seq<UnitInterval>
    var duty: UnitInterval

    ghost function View(): State
      reads this
    {
      State(load, cbr, duty)
    }

    constructor (p: Parameters)
      ensures this.p == p && dual == Off && View() == State(0.0, [], Clamp(0.5 * (p.deltaMax + p.deltaMin)))
    {
      this.p := p;
      dual, load, cbr, duty := Off, 0.0, [], Clamp(0.5 * (p.deltaMax + p.deltaMin));
    }

    method UpdateCbr(c: UnitInterval)
      modifies this`cbr, this`load
      ensures View() == Measured(old(View()), c)
    {
      var full := |cbr| >= 2;
      if full {
        cbr := cbr[1..];
      }
      cbr := cbr + [c];
      if !full {
        load := MeanOf(cbr);
      }
    }

    method Calculate()
      modifies this`load, this`duty
      ensures View() == Calculated(p, dual, old(View()))
    {
      if |cbr| == 2 {
        var mean := MeanOf(cbr);
        load := Clamp(0.5 * mean + 0.5 * load);
      }
      duty := CalculateDutyCycle();
    }

    method CalculateDutyCycle() returns (delta: UnitInterval)
      ensures delta == DutyCycle(p, dual, load, duty)
    {
      var cbrDelta := p.cbrTarget - load;
      var deltaOffset := 0.0;
      if cbrDelta > 0.0 {
        deltaOffset := Min(Times(p.beta, cbrDelta), p.gPlusMax);
      } else {
        deltaOffset := Max(Times(p.beta, cbrDelta), p.gMinusMax);
      }
      assert deltaOffset == Offset(p, load);
      delta := Bounded(p, Clamp(Times(1.0 - p.alpha, duty) + deltaOffset));
      if dual.On? {
        if Clamp(duty - delta) > dual.threshold {
          delta := Bounded(p, Clamp(Times(1.0 - dual.alternateAlpha, duty) + deltaOffset));
        }
      }
    }
  }

  // ---------------------------------------------------------------- runs

  datatype Act = Measure(cbr: UnitInterval) | Calculate

  function Stepped(p: Parameters, dual: DualAlpha, s: State, a: Act): State {
    match a
    case Measure(cbr) => Measured(s, cbr)
    case Calculate => Calculated(p, dual, s)
  }

  function After(p: Parameters, dual: DualAlpha, s: State, acts: seq<Act>): State
    decreases |acts|
  {
    if acts == [] then s else After(p, dual, Stepped(p, dual, s, acts[0]), acts[1..])
  }

  function Calculations(acts: seq<Act>): nat {
    if acts == [] then 0 else (if acts[0].Calculate? then 1 else 0) + Calculations(acts[1..])
  }

  // ---------------------------------------------------------------- contraction

  /** Clamping and bounding never widen a gap and keep the order. */
  lemma {:induction false} ResponseContracts(p: Parameters, x: real, y: real, o: real, q: real)
    ensures Abs(Response(p, x, o) - Response(p, y, q)) <= Abs(x - y) + Abs(o - q)
    ensures x <= y && o <= q ==> Response(p, x, o) <= Response(p, y, q)
  {
  }

  /** One calculation shrinks the distance of two duty cycles that use the same alpha. */
  lemma {:induction false} CalculationContracts(
    p: Parameters, dual: DualAlpha, load: UnitInterval, x: UnitInterval, y: UnitInterval, alpha: UnitInterval)
    requires AlphaFor(p, dual, load, x) == alpha == AlphaFor(p, dual, load, y)
    ensures Abs(DutyCycle(p, dual, load, x) - DutyCycle(p, dual, load, y)) <= Times(1.0 - alpha, Abs(x - y))
  {
    var (a, o) := (1.0 - alpha, Offset(p, load));
    ResponseContracts(p, Times(a, x), Times(a, y), o, o);
    Scaled(a, x, y);
  }

  /** The smallest alpha in use, which decides how slowly differences vanish. */
  function Slowest(p: Parameters, dual: DualAlpha): UnitInterval {
    if dual.On? then Min(p.alpha, dual.alternateAlpha) else p.alpha
  }

  /** Of two duty cycles at the same load, the larger one switches first. */
  lemma {:induction false} SwitchesWithDuty(
    p: Parameters, dual: DualAlpha, load: UnitInterval, x: UnitInterval, y: UnitInterval)
    requires y <= x && Switches(p, dual, load, y)
    ensures Switches(p, dual, load, x)
  {
    var (a, o) := (1.0 - p.alpha, Offset(p, load));
    ResponseContracts(p, Times(a, x), Times(a, y), o, o);
    Scaled(a, x, y);
    Slower(a, 1.0, x - y);
  }

  /** A switching duty cycle x and a smaller one y that does not switch are far enough apart. */
  predicate FarApart(p: Parameters, dual: DualAlpha, x: UnitInterval, y: UnitInterval)
    requires dual.On?
  {
    var a: real, b: real, s: real := p.alpha, dual.alternateAlpha, Slowest(p, dual);
    Times(a - s, y) <= Times(b - s, x) && Times(2.0 - a - s, y) <= Times(2.0 - b - s, x)
  }

  lemma {:induction false} KeptGap(a: real, b: real, s: real, x: real, y: real)
    ensures Abs(Times(1.0 - b, x) - Times(1.0 - a, y)) <= Times(1.0 - s, x - y)
       <==> Times(a - s, y) <= Times(b - s, x) && Times(2.0 - a - s, y) <= Times(2.0 - b - s, x)
  {
    var (ay, bx, sx, sy) := (a * y, b * x, s * x, s * y);
    assert (1.0 - b) * x == x - bx && (1.0 - a) * y == y - ay && (1.0 - s) * (x - y) == x - y - sx + sy;
    assert (a - s) * y == ay - sy && (b - s) * x == bx - sx;
    assert (2.0 - a - s) * y == 2.0 * y - ay - sy && (2.0 - b - s) * x == 2.0 * x - bx - sx;
  }

  /** The new duty cycle is not cut off at a bound. */
  predicate Uncut(p: Parameters, dual: DualAlpha, load: UnitInterval, duty: UnitInterval) {
    DutyCycle(p, dual, load, duty) == Times(1.0 - AlphaFor(p, dual, load, duty), duty) + Offset(p, load)
  }

  /**
   * Two duty cycles on either side of the threshold come closer by the factor 1 - alpha if they are far
   * enough apart; unless bounds cut them off, only then.
   */
  lemma {:induction false} AcrossThreshold(
    p: Parameters, dual: DualAlpha, load: UnitInterval, x: UnitInterval, y: UnitInterval)
    requires y <= x && Switches(p, dual, load, x) && !Switches(p, dual, load, y)
    ensures var gap := Abs(DutyCycle(p, dual, load, x) - DutyCycle(p, dual, load, y));
            && (FarApart(p, dual, x, y) ==> gap <= Times(1.0 - Slowest(p, dual), x - y))
            && (Uncut(p, dual, load, x) && Uncut(p, dual, load, y) ==>
                  (gap <= Times(1.0 - Slowest(p, dual), x - y) <==> FarApart(p, dual, x, y)))
  {
    var (a, b, o) := (p.alpha, dual.alternateAlpha, Offset(p, load));
    KeptGap(a, b, Slowest(p, dual), x, y);
    ResponseContracts(p, Times(1.0 - b, x), Times(1.0 - a, y), o, o);
  }

  /** Two duty cycles use the same alpha, or are on either side of the threshold and far enough apart. */
  predicate AlphasFit(p: Parameters, dual: DualAlpha, load: UnitInterval, x: UnitInterval, y: UnitInterval) {
    || AlphaFor(p, dual, load, x) == AlphaFor(p, dual, load, y)
    || (dual.On? && FarApart(p, dual, Max(x, y), Min(x, y)))
  }

  lemma {:induction false} FittingContracts(
    p: Parameters, dual: DualAlpha, load: UnitInterval, x: UnitInterval, y: UnitInterval)
    requires AlphasFit(p, dual, load, x, y)
    ensures Abs(DutyCycle(p, dual, load, x) - DutyCycle(p, dual, load, y))
         <= Times(1.0 - Slowest(p, dual), Abs(x - y))
  {
    var alpha := AlphaFor(p, dual, load, x);
    if AlphaFor(p, dual, load, y) == alpha {
      CalculationContracts(p, dual, load, x, y, alpha);
      Slower(1.0 - alpha, 1.0 - Slowest(p, dual), Abs(x - y));
    } else if y <= x {
      OnlyLargerSwitches(p, dual, load, x, y);
      AcrossThreshold(p, dual, load, x, y);
    } else {
      OnlyLargerSwitches(p, dual, load, y, x);
      AcrossThreshold(p, dual, load, y, x);
    }
  }

  lemma {:induction false} OnlyLargerSwitches(
    p: Parameters, dual: DualAlpha, load: UnitInterval, x: UnitInterval, y: UnitInterval)
    requires y <= x && AlphaFor(p, dual, load, x) != AlphaFor(p, dual, load, y)
    ensures Switches(p, dual, load, x) && !Switches(p, dual, load, y)
  {
    if Switches(p, dual, load, y) {
      SwitchesWithDuty(p, dual, load, x, y);
    }
  }

  /** The alphas of two controllers fit in every calculation. */
  ghost predicate AlphasFitThroughout(p: Parameters, dual: DualAlpha, s: State, t: State, acts: seq<Act>)
    decreases |acts|
  {
    acts == [] ||
    (&& (acts[0].Calculate? ==> AlphasFit(p, dual, AverageCbr(s), s.duty, t.duty))
     && AlphasFitThroughout(p, dual, Stepped(p, dual, s, acts[0]), Stepped(p, dual, t, acts[0]), acts[1..]))
  }

  /** Without dual alpha there is no other one. */
  lemma {:induction false} SingleAlpha(p: Parameters, s: State, t: State, acts: seq<Act>)
    ensures AlphasFitThroughout(p, Off, s, t, acts)
    decreases |acts|
  {
    if acts != [] {
      SingleAlpha(p, Stepped(p, Off, s, acts[0]), Stepped(p, Off, t, acts[0]), acts[1..]);
    }
  }

  /** A step of the same kind keeps two controllers alike and does not widen their distance. */
  lemma {:induction false} StepContracts(
    p: Parameters, dual: DualAlpha, s: State, t: State, a: Act, s1: State, t1: State)
    requires t == s.(duty := t.duty) && (a.Calculate? ==> AlphasFit(p, dual, AverageCbr(s), s.duty, t.duty))
    requires s1 == Stepped(p, dual, s, a) && t1 == Stepped(p, dual, t, a)
    ensures t1 == s1.(duty := t1.duty)
    ensures a.Measure? ==> s1.duty == s.duty && t1.duty == t.duty
    ensures a.Calculate? ==> Abs(s1.duty - t1.duty) <= Times(1.0 - Slowest(p, dual), Abs(s.duty - t.duty))
  {
    if a.Calculate? {
      FittingContracts(p, dual, AverageCbr(s), s.duty, t.duty);
    }
  }

  lemma {:induction false} Slower(a: real, b: real, gap: real)
    requires a <= b && 0.0 <= gap
    ensures Times(a, gap) <= Times(b, gap)
  {
    MulMonotone(gap, a, b);
  }

  /**
   * LIMERIC is a contraction: with the same history of measurements and calculations, two controllers
   * that differ only in their duty cycle see the same load throughout, and their distance shrinks by
   * 1 - alpha with every calculation. With dual alpha this holds for the smaller of the two, as long as
   * both use the same one or are far enough apart.
   */
  lemma {:induction false} Contraction(
    p: Parameters, dual: DualAlpha, s: State, t: State, acts: seq<Act>, u: State, v: State)
    requires t == s.(duty := t.duty) && AlphasFitThroughout(p, dual, s, t, acts)
    requires u == After(p, dual, s, acts) && v == After(p, dual, t, acts)
    ensures v == u.(duty := v.duty)
    ensures Abs(u.duty - v.duty) <= Times(Pow(1.0 - Slowest(p, dual), Calculations(acts)), Abs(s.duty - t.duty))
    decreases |acts|
  {
    if acts != [] {
      var (s1, t1) := (Stepped(p, dual, s, acts[0]), Stepped(p, dual, t, acts[0]));
      StepContracts(p, dual, s, t, acts[0], s1, t1);
      Contraction(p, dual, s1, t1, acts[1..], u, v);
      if acts[0].Calculate? {
        var (a, n) := (1.0 - Slowest(p, dual), Calculations(acts[1..]));
        PowNonNegative(a, n);
        GapStep(a, Pow(a, n), Abs(s.duty - t.duty), Abs(s1.duty - t1.duty));
      }
    }
  }

  /** The default parameters. */
  function Defaults(): Parameters {
    Parameters(0.016, 0.0012, 0.03, 0.0006, 0.0005, -0.00025, 0.68)
  }

  function DualDefaults(): DualAlpha {
    On(0.1, 0.00001)
  }

  /** On either side of the threshold, two duty cycles can move apart in one calculation. */
  lemma {:induction false} DualAlphaWidens()
    ensures var (p, dual, x, y) := (Defaults(), DualDefaults(), 0.00063, 0.000625);
            && Switches(p, dual, p.cbrTarget, x) && !Switches(p, dual, p.cbrTarget, y)
            && Abs(DutyCycle(p, dual, p.cbrTarget, x) - DutyCycle(p, dual, p.cbrTarget, y)) == 3.0 * Abs(x - y)
  {
    assert Times(1.0 - 0.016, 0.00063) == 0.00061992 && Times(1.0 - 0.016, 0.000625) == 0.000615;
    assert Times(1.0 - 0.1, 0.00063) == 0.000567;
    assert Offset(Defaults(), 0.68) == 0.0;
  }

  /** Whatever happens, with or without dual alpha, the duty cycle stays within its bounds. */
  lemma {:induction false} StaysInBounds(p: Parameters, dual: DualAlpha, s: State, acts: seq<Act>)
    requires p.deltaMin <= p.deltaMax
    requires p.deltaMin <= s.duty <= p.deltaMax || Calculations(acts) > 0
    ensures p.deltaMin <= After(p, dual, s, acts).duty <= p.deltaMax
    decreases |acts|
  {
    if acts != [] {
      StaysInBounds(p, dual, Stepped(p, dual, s, acts[0]), acts[1..]);
    }
  }

  // ---------------------------------------------------------------- steady channel

  /** The limits of the offset have their usual signs. */
  predicate Usual(p: Parameters) {
    p.gMinusMax <= 0.0 <= p.gPlusMax && p.deltaMin <= p.deltaMax && p.alpha > 0.0
  }

  /** The duty cycle at which a constant load leaves the controller at rest. */
  function Equilibrium(p: Parameters, load: UnitInterval): UnitInterval
    requires p.alpha > 0.0
  {
    Bounded(p, Clamp(Offset(p, load) / p.alpha))
  }

  lemma {:induction false} EquilibriumIsFixed(p: Parameters, load: UnitInterval)
    requires p.alpha > 0.0 && p.deltaMin <= p.deltaMax
    ensures DutyCycle(p, Off, load, Equilibrium(p, load)) == Equilibrium(p, load)
  {
    var (o, a) := (Offset(p, load), p.alpha);
    var q := o / a;
    var e := Equilibrium(p, load);
    RestStep(a, q, e, o);
    Sign(a, q - e);
    RestPoint(p, q, e, Times(1.0 - a, e) + o);
  }

  lemma {:induction false} RestStep(a: real, q: real, e: real, o: real)
    requires 0.0 < a && q == o / a
    ensures Times(1.0 - a, e) + o - e == Times(a, q - e)
  {
    assert a * q == o;
  }

  lemma {:induction false} RestPoint(p: Parameters, q: real, e: real, r: real)
    requires p.deltaMin <= p.deltaMax && e == Bounded(p, Clamp(q))
    requires (e < q ==> e <= r) && (q <= e ==> r <= e) && (q == e ==> r == e)
    ensures Bounded(p, Clamp(r)) == e
  {
  }

  /** The offset moves with the load, but not faster than by the factor beta, and against it. */
  lemma {:induction false} OffsetFollowsLoad(p: Parameters, a: UnitInterval, b: UnitInterval)
    requires p.gMinusMax <= 0.0 <= p.gPlusMax
    ensures Abs(Offset(p, a) - Offset(p, b)) <= Times(p.beta, Abs(a - b))
    ensures a <= b ==> Offset(p, b) <= Offset(p, a)
  {
    var (x, y) := (p.cbrTarget - a, p.cbrTarget - b);
    Scaled(p.beta, x, y);
    Sign(p.beta, x);
    Sign(p.beta, y);
    if a <= b {
      MulMonotone(p.beta, y, x);
    }
  }

  /**
   * The offset is the number within its limits that is nearest to beta times what the load is below the
   * target, and its sign says on which side of the target the load is.
   */
  lemma {:induction false} OffsetIsNearest(p: Parameters, load: UnitInterval, x: real)
    requires p.gMinusMax <= 0.0 <= p.gPlusMax && p.gMinusMax <= x <= p.gPlusMax
    ensures var wanted := Times(p.beta, p.cbrTarget - load);
            && p.gMinusMax <= Offset(p, load) <= p.gPlusMax
            && Abs(Offset(p, load) - wanted) <= Abs(x - wanted)
    ensures p.beta > 0.0 ==>
              && (Offset(p, load) > 0.0 <==> load < p.cbrTarget && p.gPlusMax > 0.0)
              && (Offset(p, load) < 0.0 <==> load > p.cbrTarget && p.gMinusMax < 0.0)
  {
    var delta: real := p.cbrTarget - load;
    Sign(p.beta, delta);
    if p.beta > 0.0 {
      StrictSign(p.beta, delta);
    }
  }

  lemma {:induction false} StrictSign(k: real, x: real)
    requires 0.0 < k
    ensures 0.0 < x <==> 0.0 < Times(k, x)
    ensures x < 0.0 <==> Times(k, x) < 0.0
  {
  }

  /** Where the duty cycle comes to rest: above its lower bound only if the load is below the target. */
  lemma {:induction false} EquilibriumOfLoad(p: Parameters, load: UnitInterval)
    requires Usual(p)
    ensures load >= p.cbrTarget ==> Equilibrium(p, load) == p.deltaMin
    ensures p.deltaMin < Offset(p, load) / p.alpha < p.deltaMax ==>
              Times(p.alpha, Equilibrium(p, load)) == Offset(p, load)
    ensures Offset(p, load) / p.alpha >= p.deltaMax ==> Equilibrium(p, load) == p.deltaMax
  {
    var q := Offset(p, load) / p.alpha;
    assert p.alpha * q == Offset(p, load);
    Sign(p.beta, p.cbrTarget - load);
    if load >= p.cbrTarget {
      Sign(p.alpha, q);
      NotAbove(p.alpha, q);
    }
  }

  lemma {:induction false} NotAbove(a: real, q: real)
    requires 0.0 < a && Times(a, q) <= 0.0
    ensures q <= 0.0
  {
    StrictSign(a, q);
  }

  /** A calculation moves the duty cycle up if and only if it is below the equilibrium, and down if above. */
  lemma {:induction false} MovesTowardsEquilibrium(
    p: Parameters, load: UnitInterval, duty: UnitInterval, e: UnitInterval)
    requires Usual(p) && e == Equilibrium(p, load)
    ensures var next := DutyCycle(p, Off, load, duty);
            && (duty < next <==> duty < e) && (next < duty <==> e < duty)
  {
    EquilibriumIsFixed(p, load);
    CalculationContracts(p, Off, load, duty, e, p.alpha);
    if duty != e {
      Shrinks(p.alpha, Abs(duty - e));
    }
  }

  lemma {:induction false} Shrinks(alpha: real, gap: real)
    requires 0.0 < alpha && 0.0 < gap
    ensures Times(1.0 - alpha, gap) < gap
  {
    assert (1.0 - alpha) * gap == gap - alpha * gap;
    StrictSign(alpha, gap);
  }

  // ---------------------------------------------------------------- measurements

  lemma {:induction false} MeanOne(x: UnitInterval)
    ensures Mean([x]) == x
  {
    var s := [x];
    assert s[..0] == [];
    assert Sum(s) == Sum(s[..0]) + x;
  }

  lemma {:induction false} MeanTwo(x: UnitInterval, y: UnitInterval)
    ensures Mean([x, y]) == 0.5 * (x + y)
  {
    assert [x, y][..1] == [x] && [x][..0] == [];
    assert Sum([x, y][..1]) == x;
  }

  /**
   * The average of the channel load: the first measurements count as they are, with a full buffer each
   * calculation takes one half of the old average and one quarter of each of the last two measurements.
   */
  lemma {:induction false} AverageOfMeasurements(s: State, x: UnitInterval, y: UnitInterval)
    ensures s.cbr == [] ==> Measured(s, x) == s.(cbr := [x], load := x)
    ensures s.cbr == [x] ==> Measured(s, y) == s.(cbr := [x, y], load := 0.5 * (x + y))
    ensures |s.cbr| == 2 ==> Measured(s, y) == s.(cbr := [s.cbr[1], y])
    ensures |s.cbr| < 2 ==> AverageCbr(s) == s.load
    ensures s.cbr == [x, y] ==> AverageCbr(s) == 0.25 * x + 0.25 * y + 0.5 * s.load
  {
    MeanOne(x);
    MeanTwo(x, y);
    AddNothing([x]);
    assert [x] + [y] == [x, y];
    assert |s.cbr| == 2 ==> s.cbr[1..] + [y] == [s.cbr[1], y];
  }

  // ---------------------------------------------------------------- steady loads

  /** The buffer holds two measurements of one load; the average may still be anywhere. */
  ghost predicate Settled(s: State, load: UnitInterval) {
    |s.cbr| == 2 && s.cbr[0] == load && s.cbr[1] == load
  }

  /** Every measurement shows the same load. */
  ghost predicate Constant(acts: seq<Act>, load: UnitInterval) {
    forall i :: 0 <= i < |acts| && acts[i].Measure? ==> acts[i].cbr == load
  }

  lemma {:induction false} MeasuredLast(s: State, load: UnitInterval, r: State)
    requires |s.cbr| <= 2 && r == Measured(s, load)
    ensures 1 <= |r.cbr| <= 2 && r.cbr[|r.cbr| - 1] == load
    ensures |s.cbr| > 0 ==> |r.cbr| == 2 && r.cbr[0] == s.cbr[|s.cbr| - 1]
  {
  }

  /** Two measurements settle the buffer, whatever was there before. */
  lemma {:induction false} TwoMeasurementsSettle(s: State, load: UnitInterval)
    requires |s.cbr| <= 2
    ensures Settled(Measured(Measured(s, load), load), load)
  {
    var r := Measured(s, load);
    MeasuredLast(s, load, r);
    MeasuredLast(r, load, Measured(r, load));
  }

  lemma {:induction false} MeanOfTwo(s: seq<UnitInterval>, load: UnitInterval)
    requires |s| == 2 && s[0] == load && s[1] == load
    ensures Mean(s) == load
  {
    assert s[..1] == [load] && s[..1][..0] == [];
    assert Sum(s[..1]) == load;
  }

  /** Every calculation halves the error of the average. */
  lemma {:induction false} LoadHalves(p: Parameters, s: State, a: Act, load: UnitInterval, r: State)
    requires Settled(s, load) && (a.Measure? ==> a.cbr == load) && r == Stepped(p, Off, s, a)
    ensures Settled(r, load)
    ensures a.Measure? ==> r.load == s.load && r.duty == s.duty
    ensures a.Calculate? ==> r.load - load == Times(0.5, s.load - load)
    ensures a.Calculate? ==> r.duty == DutyCycle(p, Off, r.load, s.duty)
  {
    MeanOfTwo(s.cbr, load);
  }

  /** One calculation at another load than that of the equilibrium. */
  lemma {:induction false} DistanceStep(p: Parameters, load: UnitInterval, now: UnitInterval, duty: UnitInterval)
    requires Usual(p)
    ensures Abs(DutyCycle(p, Off, now, duty) - Equilibrium(p, load))
         <= Times(1.0 - p.alpha, Abs(duty - Equilibrium(p, load))) + Times(p.beta, Abs(now - load))
  {
    var (a, e) := (1.0 - p.alpha, Equilibrium(p, load));
    EquilibriumIsFixed(p, load);
    OffsetFollowsLoad(p, now, load);
    ResponseContracts(p, Times(a, duty), Times(a, e), Offset(p, now), Offset(p, load));
    Scaled(a, duty, e);
  }

  function Distance(p: Parameters, s: State, load: UnitInterval): (r: real)
    requires p.alpha > 0.0
    ensures r >= 0.0
  {
    Abs(s.duty - Equilibrium(p, load))
  }

  /** By how much the error of the average can move the duty cycle. */
  function LoadError(p: Parameters, s: State, load: UnitInterval): (r: real)
    ensures r >= 0.0
  {
    Sign(p.beta, Abs(s.load - load));
    Times(p.beta, Abs(s.load - load))
  }

  lemma {:induction false} StepTowards(p: Parameters, s: State, a: Act, load: UnitInterval, r: State)
    requires Usual(p) && Settled(s, load) && (a.Measure? ==> a.cbr == load) && r == Stepped(p, Off, s, a)
    ensures Settled(r, load)
    ensures a.Measure? ==> Distance(p, r, load) == Distance(p, s, load)
    ensures a.Measure? ==> LoadError(p, r, load) == LoadError(p, s, load)
    ensures a.Calculate? ==> LoadError(p, r, load) == 0.5 * LoadError(p, s, load)
    ensures a.Calculate? ==>
              Distance(p, r, load) <= Times(1.0 - p.alpha, Distance(p, s, load)) + 0.5 * LoadError(p, s, load)
  {
    LoadHalves(p, s, a, load, r);
    if a.Calculate? {
      DistanceStep(p, load, r.load, s.duty);
      HalfError(p.beta, s.load - load, r.load - load);
    }
  }

  /** What is left of a load error after n calculations: the sum of a^(n - k) / 2^k for k from 1 to n. */
  function Share(a: real, n: nat): real {
    if n == 0 then 0.0 else 0.5 * (Pow(a, n - 1) + Share(a, n - 1))
  }

  /**
   * From any duty cycle and any average load, on a channel that stays at one load: the distance to the
   * equilibrium after n calculations is at most (1 - alpha)^n times what it was, plus what is left of
   * beta times the error of the average.
   */
  lemma {:induction false} ConvergesToEquilibrium(p: Parameters, s: State, acts: seq<Act>, load: UnitInterval, n: nat)
    requires Usual(p) && Settled(s, load) && Constant(acts, load) && n == Calculations(acts)
    ensures Distance(p, After(p, Off, s, acts), load)
         <= Times(Pow(1.0 - p.alpha, n), Distance(p, s, load)) + Times(Share(1.0 - p.alpha, n), LoadError(p, s, load))
    decreases |acts|
  {
    if acts != [] {
      var (a, r, m) := (1.0 - p.alpha, Stepped(p, Off, s, acts[0]), Calculations(acts[1..]));
      StepTowards(p, s, acts[0], load, r);
      ConvergesToEquilibrium(p, r, acts[1..], load, m);
      if acts[0].Calculate? {
        PowNonNegative(a, m);
        SumStep(a, Pow(a, m), Share(a, m), Distance(p, s, load), Distance(p, r, load), LoadError(p, s, load));
      }
    }
  }

  lemma {:induction false} HalfError(beta: real, x: real, y: real)
    requires y == Times(0.5, x)
    ensures Times(beta, Abs(y)) == 0.5 * Times(beta, Abs(x))
  {
    assert Abs(y) == 0.5 * Abs(x);
    assert beta * (0.5 * Abs(x)) == 0.5 * (beta * Abs(x));
  }

  lemma {:induction false} SumStep(a: real, k: real, h: real, d: real, next: real, e: real)
    requires 0.0 <= k && next <= Times(a, d) + 0.5 * e
    ensures Times(k, next) + Times(h, 0.5 * e) <= Times(Times(a, k), d) + Times(0.5 * (k + h), e)
  {
    MulMonotone(k, next, Times(a, d) + 0.5 * e);
    assert k * (a * d + 0.5 * e) == (a * k) * d + 0.5 * (k * e);
    assert h * (0.5 * e) == 0.5 * (h * e);
    assert (0.5 * (k + h)) * e == 0.5 * (k * e) + 0.5 * (h * e);
  }

  /** The rate at which both errors together vanish. */
  function Rate(p: Parameters): real {
    Max(1.0 - p.alpha, 0.75)
  }

  /** Hence the duty cycle converges to the equilibrium geometrically. */
  lemma {:induction false} ConvergesGeometrically(p: Parameters, s: State, acts: seq<Act>, load: UnitInterval, n: nat)
    requires Usual(p) && Settled(s, load) && Constant(acts, load) && n == Calculations(acts)
    ensures Rate(p) < 1.0
    ensures Distance(p, After(p, Off, s, acts), load)
         <= Times(Pow(Rate(p), n), Distance(p, s, load) + 2.0 * LoadError(p, s, load))
    decreases |acts|
  {
    if acts != [] {
      var (r, m) := (Stepped(p, Off, s, acts[0]), Calculations(acts[1..]));
      StepTowards(p, s, acts[0], load, r);
      ConvergesGeometrically(p, r, acts[1..], load, m);
      if acts[0].Calculate? {
        var (d, e, b) := (Distance(p, s, load), Distance(p, r, load), LoadError(p, s, load));
        RateStep(1.0 - p.alpha, Rate(p), d, e, b);
        PowNonNegative(Rate(p), m);
        GapStep(Rate(p), Pow(Rate(p), m), d + 2.0 * b, e + b);
      }
    }
  }

  lemma {:induction false} RateStep(a: real, rate: real, d: real, next: real, b: real)
    requires rate == Max(a, 0.75) && 0.0 <= d && 0.0 <= b && next <= Times(a, d) + 0.5 * b
    ensures next + b <= Times(rate, d + 2.0 * b)
  {
    Slower(a, rate, d);
    Slower(0.75, rate, 2.0 * b);
    assert rate * (d + 2.0 * b) == rate * d + rate * (2.0 * b);
  }

  // ---------------------------------------------------------------- steady channel with dual alpha

  /** The measurements and their average show one load. */
  ghost predicate Steady(s: State, load: UnitInterval) {
    Settled(s, load) && s.load == load
  }

  lemma {:induction false} SteadyStep(p: Parameters, dual: DualAlpha, s: State, a: Act, load: UnitInterval, r: State)
    requires Steady(s, load) && (a.Measure? ==> a.cbr == load) && r == Stepped(p, dual, s, a)
    ensures Steady(r, load)
    ensures r.duty == if a.Calculate? then DutyCycle(p, dual, load, s.duty) else s.duty
  {
    MeanOfTwo(s.cbr, load);
  }

  /** At one load, a duty cycle that does not switch does not lead to one that does. */
  lemma {:induction false} StaysCalm(p: Parameters, dual: DualAlpha, load: UnitInterval, duty: UnitInterval)
    requires !Switches(p, dual, load, duty)
    ensures !Switches(p, dual, load, DutyCycle(p, dual, load, duty))
  {
    var (a, o, next) := (1.0 - p.alpha, Offset(p, load), DutyCycle(p, dual, load, duty));
    ResponseContracts(p, Times(a, duty), Times(a, next), o, o);
    Scaled(a, duty, next);
    Slower(a, 1.0, Abs(duty - next));
    if duty <= next {
      MulMonotone(a, duty, next);
    }
  }

  /** The number of calculations that use the alternate alpha. */
  function SwitchCount(p: Parameters, dual: DualAlpha, s: State, acts: seq<Act>): (m: nat)
    ensures m <= Calculations(acts)
    decreases |acts|
  {
    if acts == [] then 0
    else
      SwitchCount(p, dual, Stepped(p, dual, s, acts[0]), acts[1..])
      + if acts[0].Calculate? && Switches(p, dual, AverageCbr(s), s.duty) then 1 else 0
  }

  lemma {:induction false} SteadyAverage(s: State, load: UnitInterval)
    requires Steady(s, load)
    ensures AverageCbr(s) == load
  {
    MeanOfTwo(s.cbr, load);
  }

  lemma {:induction false} CalmStep(p: Parameters, dual: DualAlpha, s: State, a: Act, load: UnitInterval, r: State)
    requires Usual(p) && Steady(s, load) && (a.Measure? ==> a.cbr == load) && r == Stepped(p, dual, s, a)
    requires !Switches(p, dual, load, s.duty)
    ensures Steady(r, load) && !Switches(p, dual, load, r.duty)
    ensures a.Calculate? ==> !Switches(p, dual, AverageCbr(s), s.duty)
    ensures a.Measure? ==> Distance(p, r, load) == Distance(p, s, load)
    ensures a.Calculate? ==> Distance(p, r, load) <= Times(1.0 - p.alpha, Distance(p, s, load))
  {
    SteadyStep(p, dual, s, a, load, r);
    SteadyAverage(s, load);
    if a.Calculate? {
      StaysCalm(p, dual, load, s.duty);
      EquilibriumIsFixed(p, load);
      CalculationContracts(p, Off, load, s.duty, Equilibrium(p, load), p.alpha);
    }
  }

  /** Without switching, dual alpha converges like a single alpha. */
  lemma {:induction false} CalmConverges(
    p: Parameters, dual: DualAlpha, s: State, acts: seq<Act>, load: UnitInterval, n: nat)
    requires Usual(p) && Steady(s, load) && Constant(acts, load) && n == Calculations(acts)
    requires !Switches(p, dual, load, s.duty)
    ensures SwitchCount(p, dual, s, acts) == 0
    ensures Distance(p, After(p, dual, s, acts), load) <= Times(Pow(1.0 - p.alpha, n), Distance(p, s, load))
    decreases |acts|
  {
    if acts != [] {
      var (a, r, m) := (1.0 - p.alpha, Stepped(p, dual, s, acts[0]), Calculations(acts[1..]));
      CalmStep(p, dual, s, acts[0], load, r);
      CalmConverges(p, dual, r, acts[1..], load, m);
      if acts[0].Calculate? {
        PowNonNegative(a, m);
        GapStep(a, Pow(a, m), Distance(p, s, load), Distance(p, r, load));
      }
    }
  }

  /** How far the alternate alpha can lead past the equilibrium. */
  function Overshoot(p: Parameters, dual: DualAlpha, load: UnitInterval): real
    requires p.alpha > 0.0 && dual.On?
  {
    Times(dual.alternateAlpha - p.alpha, Equilibrium(p, load))
  }

  /** Below the equilibrium the duty cycle does not fall. */
  lemma {:induction false} Rests(p: Parameters, load: UnitInterval, duty: UnitInterval, e: UnitInterval)
    requires Usual(p) && e == Equilibrium(p, load) && duty <= e
    ensures duty <= Response(p, Times(1.0 - p.alpha, duty), Offset(p, load))
  {
    var a := 1.0 - p.alpha;
    EquilibriumIsFixed(p, load);
    ResponseContracts(p, Times(a, duty), Times(a, e), Offset(p, load), Offset(p, load));
    Scaled(a, duty, e);
    Slower(a, 1.0, e - duty);
  }

  /** A switching duty cycle is above the equilibrium and falls by more than the threshold. */
  lemma {:induction false} SwitchFalls(
    p: Parameters, dual: DualAlpha, load: UnitInterval, duty: UnitInterval, e: UnitInterval, next: UnitInterval)
    requires Usual(p) && Switches(p, dual, load, duty) && p.alpha <= dual.alternateAlpha
    requires e == Equilibrium(p, load) && next == DutyCycle(p, dual, load, duty)
    ensures e < duty && next + dual.threshold < duty
  {
    var (a, b, o) := (1.0 - p.alpha, 1.0 - dual.alternateAlpha, Offset(p, load));
    if duty <= e {
      Rests(p, load, duty, e);
    }
    Slower(b, a, duty);
    ResponseContracts(p, Times(b, duty), Times(a, duty), o, o);
  }

  /** It is then no further away than before, or below the equilibrium by no more than the overshoot. */
  lemma {:induction false} SwitchOvershoots(
    p: Parameters, dual: DualAlpha, load: UnitInterval, duty: UnitInterval, e: UnitInterval, next: UnitInterval)
    requires Usual(p) && Switches(p, dual, load, duty) && e < duty && next <= duty
    requires e == Equilibrium(p, load) && next == DutyCycle(p, dual, load, duty)
    ensures Abs(next - e) <= Max(Abs(duty - e), Overshoot(p, dual, load))
  {
    if next < e {
      var (a, b, o) := (1.0 - p.alpha, 1.0 - dual.alternateAlpha, Offset(p, load));
      EquilibriumIsFixed(p, load);
      MulMonotone(b, e, duty);
      Fall(p, Times(b, duty), Times(b, e), Times(a, e), o, next, e);
      KeptMore(p.alpha, dual.alternateAlpha, e);
    }
  }

  lemma {:induction false} KeptMore(a: real, b: real, x: real)
    ensures Times(1.0 - a, x) - Times(1.0 - b, x) == Times(b - a, x)
  {
  }

  lemma {:induction false} Fall(p: Parameters, kept: real, least: real, held: real, o: real, next: real, e: real)
    requires least <= kept && next == Response(p, kept, o) && e == Response(p, held, o) && next < e
    ensures e - next <= held - least
  {
    ResponseContracts(p, kept, held, o, o);
  }

  /** The distance to the equilibrium, or the overshoot if that is more. */
  function Reach(p: Parameters, dual: DualAlpha, s: State, load: UnitInterval): real
    requires p.alpha > 0.0 && dual.On?
  {
    Max(Distance(p, s, load), Overshoot(p, dual, load))
  }

  lemma {:induction false} SwitchStep(p: Parameters, dual: DualAlpha, s: State, a: Act, load: UnitInterval, r: State)
    requires Usual(p) && dual.On? && p.alpha <= dual.alternateAlpha && Steady(s, load)
    requires (a.Measure? ==> a.cbr == load) && r == Stepped(p, dual, s, a)
    requires a.Calculate? ==> Switches(p, dual, load, s.duty)
    ensures Steady(r, load) && Reach(p, dual, r, load) <= Reach(p, dual, s, load)
    ensures a.Calculate? ==> Switches(p, dual, AverageCbr(s), s.duty) && r.duty + dual.threshold < s.duty
    ensures a.Measure? ==> r.duty == s.duty
  {
    SteadyStep(p, dual, s, a, load, r);
    SteadyAverage(s, load);
    if a.Calculate? {
      SwitchFalls(p, dual, load, s.duty, Equilibrium(p, load), r.duty);
      SwitchOvershoots(p, dual, load, s.duty, Equilibrium(p, load), r.duty);
    }
  }

  lemma {:induction false} OneMore(m: nat, x: real)
    ensures Times((m + 1) as real, x) == Times(m as real, x) + x
  {
  }

  /** Every use of the alternate alpha costs more than the threshold. */
  lemma {:induction false} FewSwitches(
    p: Parameters, dual: DualAlpha, s: State, acts: seq<Act>, load: UnitInterval, n: nat, m: nat)
    requires Usual(p) && dual.On? && p.alpha <= dual.alternateAlpha && Steady(s, load) && Constant(acts, load)
    requires n == Calculations(acts) && m == SwitchCount(p, dual, s, acts)
    ensures Times(m as real, dual.threshold) <= s.duty
    decreases |acts|
  {
    if acts != [] {
      if acts[0].Calculate? && !Switches(p, dual, load, s.duty) {
        CalmConverges(p, dual, s, acts, load, n);
      } else {
        var (r, rest) := (Stepped(p, dual, s, acts[0]), acts[1..]);
        var l := SwitchCount(p, dual, r, rest);
        SwitchStep(p, dual, s, acts[0], load, r);
        FewSwitches(p, dual, r, rest, load, Calculations(rest), l);
        OneMore(l, dual.threshold);
      }
    }
  }

  /** The other calculations contract what is within reach. */
  lemma {:induction false} ReachShrinks(
    p: Parameters, dual: DualAlpha, s: State, acts: seq<Act>, load: UnitInterval, n: nat, m: nat)
    requires Usual(p) && dual.On? && p.alpha <= dual.alternateAlpha && Steady(s, load) && Constant(acts, load)
    requires n == Calculations(acts) && m == SwitchCount(p, dual, s, acts)
    ensures Distance(p, After(p, dual, s, acts), load)
         <= Times(Pow(1.0 - p.alpha, n - m), Reach(p, dual, s, load))
    decreases |acts|
  {
    var a := 1.0 - p.alpha;
    PowNonNegative(a, n - m);
    if acts != [] {
      if acts[0].Calculate? && !Switches(p, dual, load, s.duty) {
        CalmConverges(p, dual, s, acts, load, n);
        MulMonotone(Pow(a, n), Distance(p, s, load), Reach(p, dual, s, load));
      } else {
        var (r, rest) := (Stepped(p, dual, s, acts[0]), acts[1..]);
        var (k, l) := (Calculations(rest), SwitchCount(p, dual, r, rest));
        SwitchStep(p, dual, s, acts[0], load, r);
        ReachShrinks(p, dual, r, rest, load, k, l);
        SameCount(p, dual, s, acts, load, n, m, k, l);
        MulMonotone(Pow(a, k - l), Reach(p, dual, r, load), Reach(p, dual, s, load));
      }
    }
  }

  /** A calculation that switches counts among both numbers, a measurement among none. */
  lemma {:induction false} SameCount(
    p: Parameters, dual: DualAlpha, s: State, acts: seq<Act>, load: UnitInterval, n: nat, m: nat, k: nat, l: nat)
    requires acts != [] && n == Calculations(acts) && m == SwitchCount(p, dual, s, acts)
    requires k == Calculations(acts[1..]) && l == SwitchCount(p, dual, Stepped(p, dual, s, acts[0]), acts[1..])
    requires acts[0].Calculate? ==> Switches(p, dual, AverageCbr(s), s.duty)
    ensures n - m == k - l
  {
  }

  /**
   * With dual alpha, from any duty cycle on a steady channel: if the alternate alpha is used in m of n
   * calculations, then m times the threshold is at most the duty cycle, and the distance to the
   * equilibrium is at most (1 - alpha)^(n - m) times what it was, or times the overshoot if that is more.
   */
  lemma {:induction false} DualAlphaConverges(
    p: Parameters, dual: DualAlpha, s: State, acts: seq<Act>, load: UnitInterval, n: nat, m: nat)
    requires Usual(p) && dual.On? && p.alpha <= dual.alternateAlpha && Steady(s, load) && Constant(acts, load)
    requires n == Calculations(acts) && m == SwitchCount(p, dual, s, acts)
    ensures Times(m as real, dual.threshold) <= s.duty
    ensures Distance(p, After(p, dual, s, acts), load)
         <= Times(Pow(1.0 - p.alpha, n - m), Reach(p, dual, s, load))
  {
    FewSwitches(p, dual, s, acts, load, n, m);
    ReachShrinks(p, dual, s, acts, load, n, m);
  }

  // ---------------------------------------------------------------- more load

  /**
   * More load never leads to a larger duty cycle; with dual alpha provided that the alternate alpha is
   * not the smaller one.
   */
  lemma {:induction false} MoreLoadLessDuty(
    p: Parameters, dual: DualAlpha, a: UnitInterval, b: UnitInterval, duty: UnitInterval)
    requires a <= b && p.gMinusMax <= 0.0 <= p.gPlusMax && (dual.On? ==> p.alpha <= dual.alternateAlpha)
    ensures DutyCycle(p, dual, b, duty) <= DutyCycle(p, dual, a, duty)
  {
    OffsetFollowsLoad(p, a, b);
    var (x, y) := (AlphaFor(p, dual, b, duty), AlphaFor(p, dual, a, duty));
    SwitchesWithLoad(p, dual, a, b, duty);
    Slower(1.0 - x, 1.0 - y, duty);
    ResponseContracts(p, Times(1.0 - x, duty), Times(1.0 - y, duty), Offset(p, b), Offset(p, a));
  }

  /** More load makes a controller switch to the alternate alpha, not back. */
  lemma {:induction false} SwitchesWithLoad(
    p: Parameters, dual: DualAlpha, a: UnitInterval, b: UnitInterval, duty: UnitInterval)
    requires Offset(p, b) <= Offset(p, a)
    ensures Switches(p, dual, a, duty) ==> Switches(p, dual, b, duty)
  {
    var kept := Times(1.0 - p.alpha, duty);
    ResponseContracts(p, kept, kept, Offset(p, b), Offset(p, a));
  }

  lemma {:induction false} ResponseRises(p: Parameters, x: real, o: real, y: real, q: real)
    requires x + o <= y + q
    ensures Response(p, x, o) <= Response(p, y, q)
  {
  }

  lemma {:induction false} ResponsesCompared(p: Parameters, x: real, y: real, o: real, q: real, duty: real)
    ensures var (r, t) := (Response(p, Times(1.0 - x, duty), o), Response(p, Times(1.0 - y, duty), q));
            && (Times(y - x, duty) <= q - o ==> r <= t)
            && (r == Times(1.0 - x, duty) + o && t == Times(1.0 - y, duty) + q ==>
                  (r <= t <==> Times(y - x, duty) <= q - o))
  {
    KeptMore(x, y, duty);
    if Times(y - x, duty) <= q - o {
      ResponseRises(p, Times(1.0 - x, duty), o, Times(1.0 - y, duty), q);
    }
  }

  /**
   * For all parameters and any two loads: load b does not lead to a larger duty cycle than load a if its
   * offset is lower by at least as much as its alpha lets more be kept; unless bounds cut them off, only
   * then.
   */
  lemma {:induction false} LoadsCompared(
    p: Parameters, dual: DualAlpha, a: UnitInterval, b: UnitInterval, duty: UnitInterval)
    ensures var kept := Times(AlphaFor(p, dual, a, duty) - AlphaFor(p, dual, b, duty), duty);
            && (kept <= Offset(p, a) - Offset(p, b) ==> DutyCycle(p, dual, b, duty) <= DutyCycle(p, dual, a, duty))
            && (Uncut(p, dual, a, duty) && Uncut(p, dual, b, duty) ==>
                  (DutyCycle(p, dual, b, duty) <= DutyCycle(p, dual, a, duty) <==> kept <= Offset(p, a) - Offset(p, b)))
  {
    var (x, y) := (AlphaFor(p, dual, b, duty), AlphaFor(p, dual, a, duty));
    ResponsesCompared(p, x, y, Offset(p, b), Offset(p, a), duty);
  }

  /** With an alternate alpha that is the smaller one, more load can lead to a larger duty cycle. */
  lemma {:induction false} SmallerAlternateAlphaRises(p: Parameters, dual: DualAlpha)
    requires p == Defaults() && dual == On(0.001, 0.00035)
    ensures DutyCycle(p, dual, 0.68, 0.02) == 0.01968 && DutyCycle(p, dual, 0.78, 0.02) == 0.01986
  {
    assert Times(1.0 - 0.016, 0.02) == 0.01968 && Times(1.0 - 0.001, 0.02) == 0.01998;
    assert Offset(p, 0.68) == 0.0 && Offset(p, 0.78) == -0.00012;
  }
}
