/**
 * Path history after the Path History Reference Design, method one: of all given path points those are
 * kept that a straight line would miss, back to 200 m of the way.
 *
 * Chord lengths and the error of an arc are trigonometry; they are parameters here.
 */
module PathHistory {
  import opened Sequences
  import opened Numbers

  datatype PathPoint = PathPoint(latitude: real, longitude: real, heading: real, time: int)

  /** `bend(c, a)` is how far a chord of length c is off an arc whose heading changes by angle a. */
  datatype Geometry = Geometry(chord: (PathPoint, PathPoint) -> real, bend: (real, real) -> real)

  const ALLOWABLE_ERROR: real := 0.47
  const CHORD_THRESHOLD: real := 22.5
  const DISTANCE: real := 200.0
  const SMALL_ANGLE: real := 1.0
  const SAMPLES := 3

  ghost predicate NonNegative(g: Geometry) {
    forall a, b :: g.chord(a, b) >= 0.0
  }

  // ---------------------------------------------------------------- which points are picked

  function ActualError(g: Geometry, start: PathPoint, next: PathPoint): real {
    if g.chord(start, next) > CHORD_THRESHOLD then ALLOWABLE_ERROR + 1.0
    else if Abs(next.heading - start.heading) < SMALL_ANGLE then 0.0
    else g.bend(g.chord(start, next), next.heading - start.heading)
  }

  /** Indices of the picked samples, newest first, if nothing was ever cut off. */
  function Picked(h: seq<PathPoint>, g: Geometry): (r: seq<nat>)
    ensures (h == [] <==> r == []) && forall i :: 0 <= i < |r| ==> r[i] < |h|
  {
    if h == [] then []
    else if |h| == 1 then [0]
    else
      var before := Picked(h[..|h| - 1], g);
      if |h| >= SAMPLES && ActualError(g, h[before[0]], h[|h| - 1]) > ALLOWABLE_ERROR then [|h| - 2] + before
      else before
  }

  ghost predicate Decreasing(s: seq<nat>) {
    forall i, j :: 0 <= i < j < |s| ==> s[i] > s[j]
  }

  lemma {:induction false} PickedDecreases(h: seq<PathPoint>, g: Geometry)
    requires h != []
    ensures Decreasing(Picked(h, g)) && (|h| >= 2 ==> Picked(h, g)[0] + 2 <= |h|)
    ensures Picked(h, g)[|Picked(h, g)| - 1] == 0
    decreases |h|
  {
    if |h| > 1 {
      PickedDecreases(h[..|h| - 1], g);
    }
  }

  function PointsAt(h: seq<PathPoint>, picked: seq<nat>): (r: seq<PathPoint>)
    requires forall i :: 0 <= i < |picked| ==> picked[i] < |h|
    ensures |r| == |picked| && forall i :: 0 <= i < |r| ==> r[i] == h[picked[i]]
  {
    seq(|picked|, i requires 0 <= i < |picked| => h[picked[i]])
  }

  function PickedPoints(h: seq<PathPoint>, g: Geometry): (r: seq<PathPoint>)
    ensures h == [] <==> r == []
  {
    PointsAt(h, Picked(h, g))
  }

  lemma {:induction false} PickedStep(h: seq<PathPoint>, p: PathPoint, g: Geometry)
    ensures h == [] ==> PickedPoints(h + [p], g) == [p]
    ensures h != [] ==>
      PickedPoints(h + [p], g)
      == (if |h| >= 2 && ActualError(g, PickedPoints(h, g)[0], p) > ALLOWABLE_ERROR then [h[|h| - 1]] else [])
         + PickedPoints(h, g)
  {
    TakeInit(h, p);
  }

  /** A straight line from start to next is too long, or misses the way between by too much. */
  ghost predicate Deviates(g: Geometry, start: PathPoint, next: PathPoint) {
    var turn := next.heading - start.heading;
    || g.chord(start, next) > 22.5
    || ((turn <= -1.0 || 1.0 <= turn) && g.bend(g.chord(start, next), turn) > 0.47)
  }

  lemma {:induction false} ErrorMeansDeviates(g: Geometry, start: PathPoint, next: PathPoint)
    ensures ActualError(g, start, next) > ALLOWABLE_ERROR <==> Deviates(g, start, next)
  {
  }

  /** From the picked sample p on, the samples up to n follow a straight line closely enough. */
  ghost predicate Straight(h: seq<PathPoint>, g: Geometry, p: nat, n: nat)
    requires p < |h|
  {
    forall m :: p + 2 <= m < n && m < |h| ==> !Deviates(g, h[p], h[m])
  }

  /**
   * The picked samples, newest first: the very first one, and from each picked one on the last sample
   * before a straight line deviates.
   */
  ghost predicate Greedy(h: seq<PathPoint>, g: Geometry, r: seq<nat>) {
    && |r| > 0 && r[|r| - 1] == 0
    && (forall i :: 0 <= i < |r| ==> r[i] < |h|)
    && (forall i, j :: 0 <= i && j == i + 1 < |r| ==>
          && r[j] < r[i] && r[i] + 1 < |h| && Deviates(g, h[r[j]], h[r[i] + 1]) && Straight(h, g, r[j], r[i] + 1))
    && Straight(h, g, r[0], |h|)
  }

  lemma {:induction false} StraightSnoc(h: seq<PathPoint>, g: Geometry, p: nat, n: nat)
    requires |h| == n + 1 && p < n && Straight(h[..n], g, p, n)
    ensures Straight(h, g, p, n + 1) <==> p + 2 > n || !Deviates(g, h[p], h[n])
  {
    assert forall m :: 0 <= m < n ==> h[..n][m] == h[m];
  }

  lemma {:induction false} StraightPrefix(h: seq<PathPoint>, g: Geometry, p: nat, n: nat, k: nat)
    requires |h| == n + 1 && p < n && k <= n && Straight(h[..n], g, p, k)
    ensures Straight(h, g, p, k)
  {
    assert forall m :: 0 <= m < n ==> h[..n][m] == h[m];
  }

  lemma {:induction false} GreedyKeeps(h: seq<PathPoint>, g: Geometry, n: nat, r: seq<nat>)
    requires |h| == n + 1 && n > 0 && Greedy(h[..n], g, r) && (r[0] + 2 > n || !Deviates(g, h[r[0]], h[n]))
    ensures Greedy(h, g, r)
  {
    StraightSnoc(h, g, r[0], n);
    forall i, j | 0 <= i && j == i + 1 < |r|
      ensures r[j] < r[i] && r[i] + 1 < |h| && Deviates(g, h[r[j]], h[r[i] + 1]) && Straight(h, g, r[j], r[i] + 1)
    {
      StraightPrefix(h, g, r[j], n, r[i] + 1);
    }
  }

  lemma {:induction false} GreedyPicks(h: seq<PathPoint>, g: Geometry, n: nat, r: seq<nat>, t: seq<nat>)
    requires |h| == n + 1 && n > 1 && Greedy(h[..n], g, r) && r[0] + 2 <= n && Deviates(g, h[r[0]], h[n])
    requires t == [n - 1] + r
    ensures Greedy(h, g, t)
  {
    forall i, j | 0 <= i && j == i + 1 < |t|
      ensures t[j] < t[i] && t[i] + 1 < |h| && Deviates(g, h[t[j]], h[t[i] + 1]) && Straight(h, g, t[j], t[i] + 1)
    {
      if i == 0 {
        StraightPrefix(h, g, r[0], n, n);
      } else {
        assert r[j - 1] < r[i - 1];
        StraightPrefix(h, g, r[j - 1], n, r[i - 1] + 1);
      }
    }
  }

  /** Which samples are picked, said without following the updates. */
  lemma {:induction false} PickedIsGreedy(h: seq<PathPoint>, g: Geometry)
    requires h != []
    ensures Greedy(h, g, Picked(h, g))
    decreases |h|
  {
    if |h| > 1 {
      var n := |h| - 1;
      var r := Picked(h[..n], g);
      PickedIsGreedy(h[..n], g);
      PickedDecreases(h[..n], g);
      ErrorMeansDeviates(g, h[r[0]], h[n]);
      if |h| >= SAMPLES && Deviates(g, h[r[0]], h[n]) {
        GreedyPicks(h, g, n, r, Picked(h, g));
      } else {
        GreedyKeeps(h, g, n, r);
      }
    }
  }

  // ---------------------------------------------------------------- cutting off what is too far away

  /** The way along the points. */
  function Length(s: seq<PathPoint>, g: Geometry): real {
    if |s| <= 1 then 0.0 else g.chord(s[0], s[1]) + Length(s[1..], g)
  }

  /** The points up to the first at which the way reaches the distance. */
  function CutFrom(s: seq<PathPoint>, distance: real, g: Geometry): (r: seq<PathPoint>)
    requires s != []
    ensures r <= s && r != []
  {
    if |s| == 1 then s
    else
      var next := distance + g.chord(s[0], s[1]);
      if next >= DISTANCE then s[..2] else [s[0]] + CutFrom(s[1..], next, g)
  }

  function Cut(s: seq<PathPoint>, g: Geometry): (r: seq<PathPoint>)
    ensures r <= s && (s == [] <==> r == [])
  {
    if s == [] then [] else CutFrom(s, 0.0, g)
  }

  lemma {:induction false} CutIsShortest(s: seq<PathPoint>, distance: real, g: Geometry, r: seq<PathPoint>)
    requires s != [] && distance < DISTANCE && NonNegative(g) && r == CutFrom(s, distance, g)
    ensures distance + Length(r[..|r| - 1], g) < DISTANCE
    ensures r == s || distance + Length(r, g) >= DISTANCE
    decreases |s|
  {
    if |s| > 1 {
      var next := distance + g.chord(s[0], s[1]);
      if next < DISTANCE {
        var rest := CutFrom(s[1..], next, g);
        CutIsShortest(s[1..], next, g, rest);
        assert r[1..] == rest && r[1] == s[1];
        if |rest| > 1 {
          assert r[..|r| - 1][1..] == rest[..|rest| - 1];
        }
      } else {
        assert r == [s[0], s[1]] && r[1..] == [s[1]];
      }
    }
  }

  /** What has been cut off once would be cut off again. */
  lemma {:induction false} CutAgain(s: seq<PathPoint>, distance: real, more: real, g: Geometry)
    requires s != [] && distance <= more && NonNegative(g)
    ensures CutFrom(CutFrom(s, distance, g), more, g) == CutFrom(s, more, g)
    decreases |s|
  {
    if |s| > 1 {
      var c := g.chord(s[0], s[1]);
      var cut := CutFrom(s, distance, g);
      assert cut[0] == s[0] && cut[1] == s[1];
      if distance + c >= DISTANCE || more + c >= DISTANCE {
        assert cut[..2] == s[..2];
      } else {
        CutAgain(s[1..], distance + c, more + c, g);
        assert cut[1..] == CutFrom(s[1..], distance + c, g);
      }
    }
  }

  lemma {:induction false} CutPush(s: seq<PathPoint>, p: PathPoint, g: Geometry)
    requires NonNegative(g)
    ensures Cut([p] + Cut(s, g), g) == Cut([p] + s, g)
  {
    if s != [] {
      var c := g.chord(p, s[0]);
      CutAgain(s, 0.0, c, g);
      assert ([p] + s)[1..] == s && ([p] + Cut(s, g))[1..] == Cut(s, g);
      assert ([p] + s)[..2] == ([p] + Cut(s, g))[..2];
    }
  }

  // ---------------------------------------------------------------- what is kept

  /** Cutting after every sample is the same as picking from all samples and cutting once. */
  function Concise(h: seq<PathPoint>, g: Geometry): seq<PathPoint> {
    Cut(PickedPoints(h, g), g)
  }

  /** The points to cut after one more sample. */
  function Extended(concise: seq<PathPoint>, h: seq<PathPoint>, p: PathPoint, g: Geometry): seq<PathPoint>
    requires h != [] && concise != []
  {
    if |h| >= 2 && ActualError(g, concise[0], p) > ALLOWABLE_ERROR then [h[|h| - 1]] + concise else concise
  }

  lemma {:induction false} ConciseStep(h: seq<PathPoint>, p: PathPoint, g: Geometry)
    requires NonNegative(g)
    ensures if h == [] then Concise(h + [p], g) == Cut([p], g) else
            Concise(h, g) != [] && Concise(h + [p], g) == Cut(Extended(Concise(h, g), h, p, g), g)
  {
    PickedStep(h, p, g);
    if h != [] {
      var s := PickedPoints(h, g);
      CutPush(s, h[|h| - 1], g);
      CutAgain(s, 0.0, 0.0, g);
      AddNothing(s);
    }
  }

  /**
   * The concise points are picked samples, strictly from newer to older. Without the oldest chord they
   * span less than 200 m; with it at least 200 m, unless they go back to the very first sample.
   */
  lemma {:induction false} ConciseIsRecentPath(h: seq<PathPoint>, g: Geometry, r: seq<PathPoint>, picked: seq<nat>)
    requires h != [] && NonNegative(g) && r == Concise(h, g) && picked == Picked(h, g)[..|r|]
    ensures Decreasing(picked) && r == PointsAt(h, picked) != []
    ensures Length(r[..|r| - 1], g) < 200.0
    ensures Length(r, g) >= 200.0 || picked[|picked| - 1] == 0
  {
    PickedDecreases(h, g);
    ConciseIsShortest(h, g, PickedPoints(h, g), r);
    RecentPath(h, Picked(h, g), PickedPoints(h, g), r, picked);
  }

  lemma {:induction false} ConciseIsShortest(h: seq<PathPoint>, g: Geometry, points: seq<PathPoint>, r: seq<PathPoint>)
    requires h != [] && NonNegative(g) && points == PickedPoints(h, g) && r == Cut(points, g)
    ensures [] < r <= points && Length(r[..|r| - 1], g) < DISTANCE && (r == points || Length(r, g) >= DISTANCE)
  {
    CutIsShortest(points, 0.0, g, r);
  }

  lemma {:induction false} RecentPath(
    h: seq<PathPoint>, all: seq<nat>, points: seq<PathPoint>, r: seq<PathPoint>, picked: seq<nat>)
    requires forall i :: 0 <= i < |all| ==> all[i] < |h|
    requires Decreasing(all) && points == PointsAt(h, all) && [] < r <= points && picked == all[..|r|]
    requires all[|all| - 1] == 0
    ensures Decreasing(picked) && (forall i :: 0 <= i < |picked| ==> picked[i] < |h|) && r == PointsAt(h, picked)
    ensures r == points ==> picked[|picked| - 1] == 0
  {
    PrefixDecreases(all, |r|);
    PrefixPoints(h, all, r);
  }

  lemma {:induction false} PrefixDecreases(s: seq<nat>, n: nat)
    requires Decreasing(s) && n <= |s|
    ensures Decreasing(s[..n])
  {
  }

  lemma {:induction false} PrefixPoints(h: seq<PathPoint>, picked: seq<nat>, r: seq<PathPoint>)
    requires forall i :: 0 <= i < |picked| ==> picked[i] < |h|
    requires r <= PointsAt(h, picked)
    ensures r == PointsAt(h, picked[..|r|])
  {
  }

  /** Samples given in order of time stay in order of time. */
  lemma {:induction false} ConciseIsOrdered(h: seq<PathPoint>, g: Geometry, i: nat, j: nat)
    requires NonNegative(g) && i < j < |Concise(h, g)|
    requires forall a, b :: 0 <= a < b < |h| ==> h[a].time < h[b].time
    ensures Concise(h, g)[i].time > Concise(h, g)[j].time
  {
    ConciseIsRecentPath(h, g, Concise(h, g), Picked(h, g)[..|Concise(h, g)|]);
  }

  // ---------------------------------------------------------------- the path history

  function Recent(h: seq<PathPoint>): (r: seq<PathPoint>)
    ensures |r| == if |h| < SAMPLES then |h| else SAMPLES
    ensures forall i, j :: 0 <= i < |r| && j == |h| - 1 - i ==> r[i] == h[j]
  {
    seq(if |h| < SAMPLES then |h| else SAMPLES, i requires 0 <= i < |h| => h[|h| - 1 - i])
  }

  lemma {:induction false} RecentStep(h: seq<PathPoint>, p: PathPoint)
    ensures Recent(h + [p]) == if |h| < SAMPLES then [p] + Recent(h) else ([p] + Recent(h))[..SAMPLES]
  {
  }

  /** The cut, once the points in front of `current` are kept and lie `distance` apart. */
  function CutRest(s: seq<PathPoint>, current: nat, distance: real, g: Geometry): seq<PathPoint>
    requires 1 <= current <= |s|
  {
    s[..current - 1] + CutFrom(s[current - 1..], distance, g)
  }

  lemma {:induction false} CutStart(s: seq<PathPoint>, g: Geometry)
    requires s != []
    ensures CutRest(s, 1, 0.0, g) == Cut(s, g)
  {
    assert s[0..] == s;
  }

  lemma {:induction false} CutEnd(s: seq<PathPoint>, n: nat, distance: real, g: Geometry)
    requires n == |s| > 0
    ensures CutRest(s, n, distance, g) == s
  {
  }

  lemma {:induction false} CutFew(s: seq<PathPoint>, g: Geometry)
    requires |s| <= 2
    ensures Cut(s, g) == s
  {
    if |s| == 2 {
      assert s[1..] == [s[1]] && s[..2] == s;
    }
  }

  lemma {:induction false} CutNext(
    s: seq<PathPoint>, current: nat, next: nat, distance: real, reached: real, g: Geometry)
    requires 1 <= current < |s| && next == current + 1 && reached == distance + g.chord(s[current - 1], s[current])
    ensures CutRest(s, current, distance, g) == if reached >= DISTANCE then s[..next] else CutRest(s, next, reached, g)
  {
    var rest := s[current - 1..];
    assert rest[0] == s[current - 1] && rest[1] == s[current] && rest[1..] == s[current..];
    if reached >= DISTANCE {
      assert s[..current - 1] + rest[..2] == s[..next];
    } else {
      CutKeep(s, current, CutFrom(rest[1..], reached, g));
    }
  }

  lemma {:induction false} CutKeep(s: seq<PathPoint>, current: nat, r: seq<PathPoint>)
    requires 1 <= current <= |s|
    ensures s[..current - 1] + ([s[current - 1]] + r) == s[..current] + r
  {
  }

  class History {
    const g: Geometry
    var samples: seq<PathPoint>
    var concise: seq<PathPoint>
    ghost var given: seq<PathPoint>

    ghost predicate Valid()
      reads this
    {
      NonNegative(g) && samples == Recent(given) && concise == Concise(given, g)
    }

    constructor (g: Geometry)
      requires NonNegative(g)
      ensures Valid() && given == [] && this.g == g
    {
      this.g := g;
      samples, concise, given := [], [], [];
    }

    method AddSample(point: PathPoint)
      requires Valid()
      modifies this
      ensures Valid() && given == old(given) + [point]
    {
      ConciseStep(given, point, g);
      RecentStep(given, point);
      samples := [point] + samples;
      if |samples| > SAMPLES {
        samples := samples[..SAMPLES];
      }
      given := given + [point];
      if concise == [] {
        concise := [samples[0]];
      }
      UpdateConcisePoints();
      TruncateConcisePoints();
    }

    method UpdateConcisePoints()
      requires concise != []
      modifies `concise
      ensures concise == if |samples| == SAMPLES && ActualError(g, old(concise)[0], samples[0]) > ALLOWABLE_ERROR
                         then [samples[1]] + old(concise) else old(concise)
    {
      if |samples| == SAMPLES {
        var (starting, next) := (concise[0], samples[0]);
        var chordLength := g.chord(starting, next);
        var actualError: real;
        if chordLength > CHORD_THRESHOLD {
          actualError := ALLOWABLE_ERROR + 1.0;
        } else {
          var deltaPhi := next.heading - starting.heading;
          if Abs(deltaPhi) < SMALL_ANGLE {
            actualError := 0.0;
          } else {
            actualError := g.bend(chordLength, deltaPhi);
          }
        }
        if actualError > ALLOWABLE_ERROR {
          concise := [samples[1]] + concise;
        }
      }
    }

    method TruncateConcisePoints()
      modifies `concise
      ensures concise == Cut(old(concise), g)
    {
      ghost var all := concise;
      if |concise| > 2 {
        var distance := 0.0;
        var current := 1;
        CutStart(all, g);
        while current < |concise|
          invariant 1 <= current <= |concise| && concise == all
          invariant CutRest(all, current, distance, g) == Cut(all, g)
        {
          ghost var before := distance;
          distance := distance + g.chord(concise[current - 1], concise[current]);
          CutNext(all, current, current + 1, before, distance, g);
          if distance >= DISTANCE {
            concise := concise[..current + 1];
            return;
          }
          current := current + 1;
        }
        CutEnd(all, current, distance, g);
      } else {
        CutFew(all, g);
      }
    }
  }
}
