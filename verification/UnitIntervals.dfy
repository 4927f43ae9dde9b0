/** Numbers in the unit interval, such as channel loads and duty cycles. */
module UnitIntervals {
  import opened Sequences

  type UnitInterval = x: real | 0.0 <= x <= 1.0 witness 0.0

  /** Out-of-range results of unit interval arithmetic are clamped. */
  function Clamp(v: real): UnitInterval {
    if v > 1.0 then 1.0 else if v < 0.0 then 0.0 else v
  }

  function Sum(s: seq<UnitInterval>): real {
    if s == [] then 0.0 else Sum(s[..|s| - 1]) + s[|s| - 1]
  }

  function Mean(s: seq<UnitInterval>): UnitInterval {
    Clamp(if |s| > 1 then Sum(s) / (|s| as real) else Sum(s))
  }

  method MeanOf(s: seq<UnitInterval>) returns (m: UnitInterval)
    ensures m == Mean(s)
  {
    var accu := 0.0;
    for i := 0 to |s|
      invariant accu == Sum(s[..i])
    {
      TakeLess(s, i, i + 1);
      accu := accu + s[i];
    }
    TakeAll(s, |s|);
    m := Clamp(if |s| > 1 then accu / (|s| as real) else accu);
  }
}
