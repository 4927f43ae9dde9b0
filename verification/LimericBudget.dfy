/**
 * The LIMERIC gate (Annex B of ETSI TS 102 687 v1.2.1): after a transmission the gate stays closed for
 * an interval that makes the transmission fit the permitted duty cycle, and a closed gate is adjusted
 * when the permitted duty cycle changes. Times are in microseconds.
 */
module LimericBudget {
  import opened Numbers
  import opened Runtime
  import Limeric

  const MIN_INTERVAL: Duration := 25_000
  const MAX_INTERVAL: Duration := 1_000_000

  datatype Gate = Gate(interval: Duration, start: Time, on: Duration)

  function Ratio(a: real, b: real): real
    requires b != 0.0
  {
    a / b
  }

  /** Conversion to whole microseconds cuts off the fraction, towards zero. */
  function Truncated(x: real): int {
    if x < 0.0 then -((-x).Floor) else x.Floor
  }

  function ClampInterval(d: Duration): (r: Duration)
    ensures MIN_INTERVAL <= r <= MAX_INTERVAL
  {
    if d < MIN_INTERVAL then MIN_INTERVAL else if d > MAX_INTERVAL then MAX_INTERVAL else d
  }

  function DelayAt(g: Gate, now: Time): Duration {
    if now >= g.start + g.interval then 0 else g.start + g.interval - now
  }

  function Notified(g: Gate, now: Time, on: Duration, duty: real): Gate
    requires duty > 0.0
  {
    Gate(ClampInterval(Truncated(Ratio(on as real, duty))), now, on)
  }

  /** Equation B.2 for a closed gate, equation B.1 for an open one. */
  function Updated(g: Gate, now: Time, duty: real): Gate
    requires g.interval > 0
  {
    var wait := g.start + g.interval - now;
    if duty <= 0.0 then g.(interval := MAX_INTERVAL)
    else
      var full := Ratio(g.on as real, duty);
      if wait > 0 then
        var rest := Times(full, Ratio(wait as real, g.interval as real));
        g.(interval := ClampInterval(Truncated(rest) + now - g.start))
      else g.(interval := ClampInterval(Truncated(full)))
  }

  class Budget {
    const runtime: ManualRuntime
    var interval: Duration
    var start: Time
    var on: Duration

    ghost function View(): Gate
      reads this
    {
      Gate(interval, start, on)
    }

    /** `never` is a time so far back that a gate closed then is open by now. */
    constructor (runtime: ManualRuntime, never: Time, duty: real)
      requires never + MAX_INTERVAL <= runtime.now
      ensures this.runtime == runtime
      ensures View() == Updated(Gate(MIN_INTERVAL, never, 0), runtime.now, duty)
      ensures DelayAt(View(), runtime.now) == 0
    {
      this.runtime := runtime;
      interval, start, on := MIN_INTERVAL, never, 0;
      new;
      Update(duty);
    }

    method Delay() returns (delay: Duration)
      ensures delay == DelayAt(View(), runtime.now) >= 0
      ensures delay == 0 <==> start + interval <= runtime.now
      ensures delay > 0 ==> runtime.now + delay == start + interval
    {
      if runtime.now >= start + interval {
        delay := 0;
      } else {
        delay := start + interval - runtime.now;
      }
    }

    method Notify(txOn: Duration, duty: real)
      requires duty > 0.0
      modifies this
      ensures View() == Notified(old(View()), runtime.now, txOn, duty)
    {
      start := runtime.now;
      on := txOn;
      interval := ClampInterval(Truncated(Ratio(txOn as real, duty)));
    }

    method Update(duty: real)
      requires interval > 0
      modifies this
      ensures View() == Updated(old(View()), runtime.now, duty)
    {
      var wait := start + interval - runtime.now;
      if duty > 0.0 {
        var full := Ratio(on as real, duty);
        if wait > 0 {
          var rest := Times(full, Ratio(wait as real, interval as real));
          interval := ClampInterval(Truncated(rest) + runtime.now - start);
        } else {
          interval := ClampInterval(Truncated(full));
        }
      } else {
        interval := MAX_INTERVAL;
      }
    }
  }

  // ---------------------------------------------------------------- runs

  /** A client transmits only when the delay is zero; the permitted duty cycle may change any time. */
  datatype Act =
    | Transmit(at: Time, on: Duration, duty: real)
    | Change(at: Time, duty: real)

  ghost predicate Allowed(g: Gate, now: Time, a: Act) {
    && now <= a.at
    && (a.Transmit? ==> a.on >= 0 && a.duty > 0.0 && DelayAt(g, a.at) == 0)
  }

  function Stepped(g: Gate, a: Act): Gate
    requires g.interval > 0 && (a.Transmit? ==> a.duty > 0.0)
  {
    match a
    case Transmit(at, on, duty) => Notified(g, at, on, duty)
    case Change(at, duty) => Updated(g, at, duty)
  }

  ghost predicate Inv(g: Gate, now: Time) {
    MIN_INTERVAL <= g.interval <= MAX_INTERVAL && g.start <= now && g.on >= 0
  }

  lemma {:induction false} SteppedInv(g: Gate, now: Time, a: Act)
    requires Inv(g, now) && Allowed(g, now, a)
    ensures Inv(Stepped(g, a), a.at)
    ensures 0 <= DelayAt(Stepped(g, a), a.at) <= Stepped(g, a).interval
    ensures a.Change? ==> Stepped(g, a).start == g.start
    ensures a.Transmit? ==> Stepped(g, a).start == a.at >= g.start + MIN_INTERVAL
  {
  }

  /** The runs of a client, as the instants of its transmissions. */
  ghost function Transmissions(g: Gate, now: Time, acts: seq<Act>): (r: seq<Time>)
    requires Inv(g, now) && Legal(g, now, acts)
    decreases |acts|
  {
    if acts == [] then []
    else
      SteppedInv(g, now, acts[0]);
      (if acts[0].Transmit? then [acts[0].at] else [])
      + Transmissions(Stepped(g, acts[0]), acts[0].at, acts[1..])
  }

  ghost predicate Legal(g: Gate, now: Time, acts: seq<Act>)
    requires Inv(g, now)
    decreases |acts|
  {
    acts == [] ||
    (Allowed(g, now, acts[0]) &&
     (SteppedInv(g, now, acts[0]); Legal(Stepped(g, acts[0]), acts[0].at, acts[1..])))
  }

  /** Times at least 25 ms apart and after a given one. */
  ghost predicate Apart(start: Time, r: seq<Time>) {
    && (forall i :: 0 <= i < |r| ==> start + MIN_INTERVAL <= r[i])
    && (forall i, j :: 0 <= i < j < |r| ==> r[i] + MIN_INTERVAL <= r[j])
  }

  lemma {:induction false} ApartCons(start: Time, a: Act, next: Time, rest: seq<Time>)
    requires Apart(next, rest)
    requires if a.Transmit? then next == a.at >= start + MIN_INTERVAL else next == start
    ensures Apart(start, (if a.Transmit? then [a.at] else []) + rest)
  {
  }

  /** However the duty cycle changes in between, transmissions are at least 25 ms apart. */
  lemma {:induction false} TransmissionsApart(g: Gate, now: Time, acts: seq<Act>)
    requires Inv(g, now) && Legal(g, now, acts)
    ensures Apart(g.start, Transmissions(g, now, acts))
    decreases |acts|
  {
    if acts != [] {
      SteppedInv(g, now, acts[0]);
      var n := Stepped(g, acts[0]);
      TransmissionsApart(n, acts[0].at, acts[1..]);
      ApartCons(g.start, acts[0], n.start, Transmissions(n, acts[0].at, acts[1..]));
    }
  }

  /** A change of the duty cycle never moves the opening of a closed gate into the past. */
  lemma {:induction false} UpdateOpensNotInPast(g: Gate, now: Time, duty: real)
    requires Inv(g, now) && DelayAt(g, now) > 0
    ensures var u := Updated(g, now, duty);
            u.start == g.start && u.start + u.interval >= now
  {
    if duty > 0.0 {
      var wait := g.start + g.interval - now;
      RatioSign(g.on as real, duty);
      RatioSign(wait as real, g.interval as real);
      Sign(Ratio(g.on as real, duty), Ratio(wait as real, g.interval as real));
    }
  }

  lemma {:induction false} RatioSign(a: real, b: real)
    requires 0.0 <= a && 0.0 < b
    ensures 0.0 <= Ratio(a, b)
  {
  }

  /**
   * Unless the interval is capped at one second, a transmission takes no larger share of its interval
   * than the permitted duty cycle, up to the microsecond cut off.
   */
  lemma {:induction false} NotifyRespectsDutyCycle(g: Gate, now: Time, on: Duration, duty: real)
    requires on >= 0 && duty > 0.0
    ensures var n := Notified(g, now, on, duty);
            n.interval < MAX_INTERVAL ==> on as real <= Times(duty, (n.interval + 1) as real)
  {
    var q := Ratio(on as real, duty);
    RatioSign(on as real, duty);
    var n := Notified(g, now, on, duty);
    if n.interval < MAX_INTERVAL {
      assert q <= (n.interval + 1) as real;
      MulMonotone(duty, q, (n.interval + 1) as real);
      assert duty * q == on as real;
    }
  }

  /** A controller with a positive lower bound only ever permits positive duty cycles. */
  lemma {:induction false} ControllerPermitsTransmission(
    p: Limeric.Parameters, dual: Limeric.DualAlpha, s: Limeric.State, acts: seq<Limeric.Act>)
    requires 0.0 < p.deltaMin <= p.deltaMax && p.deltaMin <= s.duty <= p.deltaMax
    ensures Limeric.After(p, dual, s, acts).duty > 0.0
  {
    Limeric.StaysInBounds(p, dual, s, acts);
  }

  // ---------------------------------------------------------------- the equations

  /** n is the whole number of microseconds in x, unless a limit cuts it off. */
  ghost predicate IntervalOf(n: Duration, x: real) {
    && (n == MIN_INTERVAL || n as real <= x)
    && (n == MAX_INTERVAL || x < (n + 1) as real)
    && MIN_INTERVAL <= n <= MAX_INTERVAL
  }

  lemma {:induction false} IntervalIs(x: real, shift: int)
    requires 0.0 <= x
    ensures IntervalOf(ClampInterval(Truncated(x) + shift), x + shift as real)
  {
  }

  /** There is only one such number. */
  lemma {:induction false} IntervalIsUnique(a: Duration, b: Duration, x: real)
    requires IntervalOf(a, x) && IntervalOf(b, x)
    ensures a == b
  {
  }

  /** Equation B.1: after a transmission the interval is the time on the air over the duty cycle. */
  lemma {:induction false} NotifiedInterval(g: Gate, now: Time, on: Duration, duty: real)
    requires on >= 0 && duty > 0.0
    ensures var n := Notified(g, now, on, duty);
            n.start == now && n.on == on && IntervalOf(n.interval, (on as real) / duty)
  {
    RatioSign(on as real, duty);
    IntervalIs(Ratio(on as real, duty), 0);
  }

  /**
   * A change of the duty cycle: equation B.1 for an open gate; for a closed one, what is left of the
   * interval is scaled by the new interval over the old one (equation B.2), added to what has passed;
   * the largest interval if nothing is permitted.
   */
  lemma {:induction false} UpdatedInterval(g: Gate, now: Time, duty: real, wait: Duration)
    requires Inv(g, now) && wait == DelayAt(g, now)
    ensures var u := Updated(g, now, duty);
            && u.start == g.start && u.on == g.on
            && (duty <= 0.0 ==> u.interval == MAX_INTERVAL)
            && (duty > 0.0 && wait == 0 ==> IntervalOf(u.interval, (g.on as real) / duty))
            && (duty > 0.0 && wait > 0 ==>
                  IntervalOf(u.interval,
                             (now - g.start) as real
                             + ((g.on as real) / duty) * ((wait as real) / (g.interval as real))))
  {
    if duty > 0.0 {
      var full := Ratio(g.on as real, duty);
      RatioSign(g.on as real, duty);
      if wait > 0 {
        RatioSign(wait as real, g.interval as real);
        Sign(full, Ratio(wait as real, g.interval as real));
        IntervalIs(Times(full, Ratio(wait as real, g.interval as real)), now - g.start);
      } else {
        IntervalIs(full, 0);
      }
    }
  }

  lemma {:induction false} WholeRest(interval: Duration, wait: Duration, full: real)
    requires 0 < wait && 0 < interval && full == interval as real
    ensures Times(full, Ratio(wait as real, interval as real)) == wait as real
  {
    assert (interval as real) * ((wait as real) / (interval as real)) == wait as real;
  }

  /** If the duty cycle is the one the interval was made for, a closed gate stays as it is. */
  lemma {:induction false} SameDutySameGate(g: Gate, now: Time, duty: real)
    requires Inv(g, now) && DelayAt(g, now) > 0 && duty > 0.0 && Ratio(g.on as real, duty) == g.interval as real
    ensures Updated(g, now, duty) == g
  {
    WholeRest(g.interval, g.start + g.interval - now, Ratio(g.on as real, duty));
  }
}
