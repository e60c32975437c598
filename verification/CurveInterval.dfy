/** The search for the time at which the forgetting curve falls below a target retention. */
module CurveInterval {
  import opened Wrappers
  import opened Lists
  import opened RealVectors

  const NUM_POINTS: nat := 128
  const NUM_CURVES: nat := 128
  const PROBABILITY_EPS: real := 0.00001
  const PROBABILITY_SCALE: real := 1.0 - 2.0 * PROBABILITY_EPS
  const S_POINT_SPREAD: real := 18.5
  const S_MAX: real := 22.0
  const POINT_SPREAD: real := 18.5
  const MAX_E: real := 21.0
  const GRID_CELLS: real := 4294967296.0

  /** The logarithm of odds as a float: not a number for negative odds, infinite at no and at endless odds. */
  datatype Logit = NotANumber | NegativeInfinity | PositiveInfinity | Finite(value: real)

  /** The transcendental functions; `decay` is the part of a memory of one second's strength left after a time. */
  datatype Curve = Curve(exp: real -> real, decay: real -> real, ln: real -> real, sigmoid: real -> real) {
    ghost predicate Sound() {
      && (forall x :: x >= 0.0 ==> Exp(x) >= 1.0 + x)
      && (forall x, y :: 0.0 <= x < y ==> Exp(x) < Exp(y))
      && Exp(0.0) == 1.0
      && (forall x :: x >= 0.0 ==> 0.0 <= Decay(x) <= 1.0)
      && (forall x, y :: 0.0 <= x <= y ==> Decay(y) <= Decay(x))
    }

    function Exp(x: real): real {
      exp(x)
    }

    function Decay(x: real): real {
      decay(x)
    }

    function LogitOf(raw: real): Logit {
      if raw == 1.0 then PositiveInfinity
      else
        var odds := raw / (1.0 - raw);
        if odds < 0.0 then NotANumber else if odds == 0.0 then NegativeInfinity else Finite(ln(odds))
    }

    /** The sigmoid of the logit of a raw probability and a residual, where the logit is a number. */
    function Probability(raw: real, residual: real): Option<real> {
      match LogitOf(raw)
      case NotANumber => None
      case NegativeInfinity => Some(0.0)
      case PositiveInfinity => Some(1.0)
      case Finite(logit) => Some(sigmoid(logit + residual))
    }
  }

  lemma LogitIsNumberIff(m: Curve, raw: real)
    ensures m.LogitOf(raw) != NotANumber <==> 0.0 <= raw <= 1.0
  {
    if raw != 1.0 {
      var rest := 1.0 - raw;
      var odds := raw / rest;
      assert odds * rest == raw;
      assert raw > 1.0 ==> odds < 0.0;
      assert raw < 0.0 ==> odds < 0.0;
      assert 0.0 <= raw < 1.0 ==> odds >= 0.0;
    }
  }

  datatype CurveError = WrongLogits | WrongWeights | BadRetention | BeyondPoints

  // ----- The point space -----

  function Grid(spread: real, count: nat, i: nat): real
    requires count > 1
  {
    spread / (count - 1) as real * i as real
  }

  function Scaled(offset: real, grown: real, scale: real): real {
    offset + (grown - 1.0) * scale
  }

  function Strength(m: Curve, i: nat): real {
    Scaled(0.1, m.Exp(Grid(S_POINT_SPREAD, NUM_CURVES, i)), m.Exp(S_MAX - S_POINT_SPREAD))
  }

  function SSpace(m: Curve): (r: seq<real>)
    ensures |r| == NUM_CURVES
  {
    seq(NUM_CURVES, i requires 0 <= i => Strength(m, i))
  }

  function Point(m: Curve, i: nat): real {
    Scaled(0.5, m.Exp(Grid(POINT_SPREAD, NUM_POINTS, i)), m.Exp(MAX_E - POINT_SPREAD))
  }

  function PointSpace(m: Curve): (r: seq<real>)
    ensures |r| == NUM_POINTS
  {
    seq(NUM_POINTS, i requires 0 <= i => Point(m, i))
  }

  /** What the searches rely on: the points ascend from below the first second to beyond it. */
  predicate Ascending(points: seq<real>) {
    && |points| > 1 && points[0] < 1.0 < points[|points| - 1]
    && forall i, j :: 0 <= i < j < |points| ==> points[i] < points[j]
  }

  lemma GridNotNegative(spread: real, count: nat, i: nat)
    requires count > 1 && spread > 0.0
    ensures Grid(spread, count, i) >= 0.0
  {
    var none: nat := 0;
    assert Grid(spread, count, none) == 0.0;
    if i > none {
      GridAscends(spread, count, none, i);
    }
  }

  lemma ScaledAscends(a: real, b: real, scale: real)
    requires a < b && scale > 0.0
    ensures a * scale < b * scale
  {
    assert b * scale - a * scale == (b - a) * scale;
    assert (b - a) * scale > 0.0;
  }

  lemma GridAscends(spread: real, count: nat, i: nat, j: nat)
    requires count > 1 && spread > 0.0 && i < j
    ensures Grid(spread, count, i) < Grid(spread, count, j)
  {
    var step, from, to := spread / (count - 1) as real, i as real, j as real;
    assert step > 0.0;
    ScaledAscends(from, to, step);
    assert step * from == from * step && step * to == to * step;
  }

  lemma ScaledGrows(offset: real, a: real, b: real, scale: real)
    requires a < b && scale > 0.0
    ensures Scaled(offset, a, scale) < Scaled(offset, b, scale)
  {
    ScaledAscends(a - 1.0, b - 1.0, scale);
  }

  lemma PointBelow(m: Curve, i: nat, j: nat)
    requires m.Sound() && i < j
    ensures Point(m, i) < Point(m, j)
  {
    var low, high := Grid(POINT_SPREAD, NUM_POINTS, i), Grid(POINT_SPREAD, NUM_POINTS, j);
    assert m.Exp(low) < m.Exp(high) by {
      GridNotNegative(POINT_SPREAD, NUM_POINTS, i);
      GridAscends(POINT_SPREAD, NUM_POINTS, i, j);
    }
    ScaledGrows(0.5, m.Exp(low), m.Exp(high), m.Exp(MAX_E - POINT_SPREAD));
  }

  lemma PointsAscend(m: Curve)
    requires m.Sound()
    ensures Ascending(PointSpace(m))
  {
    var points := PointSpace(m);
    forall i, j | 0 <= i < j < |points| ensures points[i] < points[j] {
      PointBelow(m, i, j);
    }
    FirstPoint(m);
    LastPoint(m, NUM_POINTS - 1);
  }

  lemma FirstPoint(m: Curve)
    requires m.Sound()
    ensures Point(m, 0) == 0.5
  {
    assert Grid(POINT_SPREAD, NUM_POINTS, 0) == 0.0;
  }

  lemma LastPoint(m: Curve, last: nat)
    requires m.Sound() && last == NUM_POINTS - 1
    ensures Point(m, last) > 1.0
  {
    assert Grid(POINT_SPREAD, NUM_POINTS, last) == POINT_SPREAD;
    var scale := m.Exp(MAX_E - POINT_SPREAD);
    assert scale >= 1.0 && m.Exp(POINT_SPREAD) - 1.0 >= POINT_SPREAD;
    ScaledAtLeast(0.5, m.Exp(POINT_SPREAD), scale, POINT_SPREAD);
  }

  lemma ScaledAtLeast(offset: real, grown: real, scale: real, low: real)
    requires grown - 1.0 >= low >= 0.0 && scale >= 1.0
    ensures Scaled(offset, grown, scale) >= offset + low
  {
    var a := grown - 1.0;
    if a > 0.0 && scale > 1.0 {
      ScaledAscends(1.0, scale, a);
      assert scale * a == a * scale;
    }
  }

  predicate Positive(s: seq<real>) {
    forall i :: 0 <= i < |s| ==> s[i] > 0.0
  }

  lemma SpacePositive(m: Curve)
    requires m.Sound()
    ensures Positive(SSpace(m))
  {
    forall i | 0 <= i < NUM_CURVES ensures SSpace(m)[i] > 0.0 {
      StrengthPositive(m, i);
    }
  }

  lemma StrengthPositive(m: Curve, i: nat)
    requires m.Sound()
    ensures Strength(m, i) > 0.0
  {
    var at, scale := Grid(S_POINT_SPREAD, NUM_CURVES, i), m.Exp(S_MAX - S_POINT_SPREAD);
    GridNotNegative(S_POINT_SPREAD, NUM_CURVES, i);
    ScaledAtLeast(0.1, m.Exp(at), scale, 0.0);
  }

  // ----- One probability -----

  /** The number of leading points below a value, as the partition point of an ascending space. */
  function SearchSortedLeft(space: seq<real>, value: real): (k: nat)
    ensures k <= |space| && (forall i :: 0 <= i < k ==> space[i] < value) && (k < |space| ==> space[k] >= value)
  {
    if space == [] || space[0] >= value then 0
    else
      var k := SearchSortedLeft(space[1..], value) + 1;
      assert forall i :: 1 <= i < k ==> space[i] == space[1..][i - 1];
      k
  }

  /** A probe inside the point space lies in exactly one interval, which has positive width. */
  lemma ProbeInside(points: seq<real>, elapsed: real)
    requires Ascending(points) && 1.0 <= elapsed <= points[|points| - 1]
    ensures var right := SearchSortedLeft(points, elapsed);
      0 < right < |points| && points[right - 1] < elapsed <= points[right]
  {
    var first, last := points[0], points[|points| - 1];
    assert first < elapsed <= last;
  }

  /** What a time leaves of memories of the given strengths. */
  function Decays(m: Curve, s: seq<real>, elapsed: real): (r: seq<real>)
    requires Positive(s)
    ensures |r| == |s|
  {
    seq(|s|, i requires 0 <= i < |s| => m.Decay(elapsed / s[i]))
  }

  function WeightedDecay(m: Curve, weights: seq<real>, s: seq<real>, elapsed: real): real
    requires |weights| == |s| && Positive(s)
  {
    Dot(weights, Decays(m, s, elapsed))
  }

  /** Between two points the logit residual is the straight line through their values. */
  function Interpolated(points: seq<real>, values: seq<real>, elapsed: real, right: nat): real
    requires |values| == |points| && 0 < right < |points| && points[right - 1] < points[right]
  {
    var (xl, xr) := (points[right - 1], points[right]);
    var (yl, yr) := (values[right - 1], values[right]);
    yl + (yr - yl) * (elapsed - xl) / (xr - xl)
  }

  function RawOf(sum: real): real {
    sum * PROBABILITY_SCALE + PROBABILITY_EPS
  }

  /** The curve of one card: its inputs and the two spaces. */
  datatype Card = Card(m: Curve, logits: seq<real>, weights: seq<real>, s: seq<real>, points: seq<real>) {
    predicate Valid() {
      |logits| == |points| && |weights| == |s| && Positive(s) && Ascending(points)
    }

    function Last(): real
      requires Valid()
    {
      points[|points| - 1]
    }

    /** The weighted decays as a raw probability. */
    function Raw(elapsed: real): real
      requires Valid()
    {
      RawOf(WeightedDecay(m, weights, s, elapsed))
    }

    function Residual(elapsed: real): real
      requires Valid() && 1.0 <= elapsed <= Last()
    {
      ProbeInside(points, elapsed);
      PROBABILITY_EPS + PROBABILITY_SCALE * Interpolated(points, logits, elapsed, SearchSortedLeft(points, elapsed))
    }

    /** The probability at a time inside the point space; none is not a number. */
    function At(elapsed: real): Option<real>
      requires Valid() && 1.0 <= elapsed <= Last()
    {
      m.Probability(Raw(elapsed), Residual(elapsed))
    }

    /** The same as a function of all times. */
    function Curve(): Recall
      requires Valid()
    {
      Recall(points, t => if 1.0 <= t <= Last() then At(t) else None)
    }
  }

  /** A probability for each time, of which the search only sees what it probes; none is not a number. */
  datatype Recall = Recall(points: seq<real>, at: real -> Option<real>) {
    predicate Valid() {
      Ascending(points)
    }

    function Last(): real
      requires Valid()
    {
      points[|points| - 1]
    }

    predicate Number(time: real) {
      at(time).Some?
    }

    predicate Below(time: real, target: real) {
      at(time).Some? && at(time).value < target
    }

    predicate AtLeast(time: real, target: real) {
      at(time).Some? && at(time).value >= target
    }
  }

  ghost predicate Follows(c: Recall, card: Card)
    requires card.Valid()
  {
    c.points == card.points && forall t {:trigger card.At(t)} :: 1.0 <= t <= card.Last() ==> c.at(t) == card.At(t)
  }

  method SumDecays(card: Card, elapsed: real) returns (sum: real)
    requires card.Valid()
    ensures sum == WeightedDecay(card.m, card.weights, card.s, elapsed)
  {
    ghost var decays := Decays(card.m, card.s, elapsed);
    sum := 0.0;
    for i := 0 to |card.weights|
      invariant sum == SumTo(Times(card.weights, decays), i)
    {
      var decay := card.m.Decay(elapsed / card.s[i]);
      assert Times(card.weights, decays)[i] == card.weights[i] * decay;
      sum := sum + card.weights[i] * decay;
    }
  }

  // ----- What a probability is -----

  /** The value at `x` of the line through two points divides their values' gap as `x` divides theirs. */
  predicate OnLine(xl: real, yl: real, xr: real, yr: real, x: real, y: real) {
    && (y - yl) * (xr - x) == (yr - y) * (x - xl)
    && (yl <= y <= yr || yr <= y <= yl)
  }

  /** Between two neighbouring points the values lie on the line through them; at a point the value is its own. */
  ghost predicate LiesOn(points: seq<real>, values: seq<real>, x: real, y: real)
    requires |values| == |points|
  {
    exists k :: 0 < k < |points| && points[k - 1] < x <= points[k]
      && OnLine(points[k - 1], values[k - 1], points[k], values[k], x, y)
  }

  lemma LineEquation(xl: real, yl: real, xr: real, yr: real, x: real, d: real)
    requires xl < x <= xr && d == (yr - yl) * (x - xl) / (xr - xl)
    ensures d * (xr - xl) == (yr - yl) * (x - xl)
    ensures d * (xr - x) == (yr - yl - d) * (x - xl)
  {
    var width, part, rest := xr - xl, x - xl, xr - x;
    assert d * width == (yr - yl) * part;
    assert d * width == d * part + d * rest;
    assert (yr - yl - d) * part == (yr - yl) * part - d * part;
  }

  lemma FractionOf(gap: real, part: real, width: real, d: real)
    requires 0.0 < part <= width && d * width == gap * part
    ensures gap >= 0.0 ==> 0.0 <= d <= gap
    ensures gap <= 0.0 ==> gap <= d <= 0.0
  {
    if gap >= 0.0 {
      FractionOfPositive(gap, part, width, d);
    } else {
      assert (-d) * width == (-gap) * part;
      FractionOfPositive(-gap, part, width, -d);
    }
  }

  lemma FractionOfPositive(gap: real, part: real, width: real, d: real)
    requires gap >= 0.0 && 0.0 < part <= width && d * width == gap * part
    ensures 0.0 <= d <= gap
  {
    if d < 0.0 {
      ScaledAscends(d, 0.0, width);
      ScaledKeepsOrder(0.0, gap, part);
    }
    ScaledKeepsOrder(part, width, gap);
    assert gap * part == part * gap && gap * width == width * gap;
    if d > gap {
      ScaledAscends(gap, d, width);
    }
  }

  lemma InterpolatedOnLine(points: seq<real>, values: seq<real>, x: real, right: nat)
    requires |values| == |points| && 0 < right < |points| && points[right - 1] < x <= points[right]
    ensures OnLine(points[right - 1], values[right - 1], points[right], values[right], x,
                   Interpolated(points, values, x, right))
  {
    var (xl, xr, yl, yr) := (points[right - 1], points[right], values[right - 1], values[right]);
    var d := (yr - yl) * (x - xl) / (xr - xl);
    LineEquation(xl, yl, xr, yr, x, d);
    FractionOf(yr - yl, x - xl, xr - xl, d);
    assert Interpolated(points, values, x, right) == yl + d;
  }

  /** The decayed weights added up. */
  function DecaySum(card: Card, elapsed: real, n: nat): real
    requires n <= |card.weights| && |card.weights| == |card.s| && Positive(card.s)
  {
    if n == 0 then 0.0
    else DecaySum(card, elapsed, n - 1) + card.weights[n - 1] * card.m.decay(elapsed / card.s[n - 1])
  }

  lemma {:induction false} DecaySumIs(card: Card, elapsed: real, n: nat)
    requires card.Valid() && n <= |card.weights|
    ensures DecaySum(card, elapsed, n) == SumTo(Times(card.weights, Decays(card.m, card.s, elapsed)), n)
  {
    if n > 0 {
      DecaySumIs(card, elapsed, n - 1);
    }
  }

  /** The logistic of the log-odds of a raw probability moved by a residual; none for negative odds. */
  function MovedLogistic(m: Curve, raw: real, residual: real): Option<real> {
    if raw < 0.0 || raw > 1.0 then None
    else if raw == 0.0 then Some(0.0)
    else if raw == 1.0 then Some(1.0)
    else Some(m.sigmoid(m.ln(raw / (1.0 - raw)) + residual))
  }

  /** The weighted decays squeezed off 0 and 1, moved by a squeezed logit. */
  function LogisticAt(card: Card, x: real, y: real): Option<real>
    requires card.Valid()
  {
    MovedLogistic(card.m, 0.00001 + 0.99998 * DecaySum(card, x, |card.weights|), 0.00001 + 0.99998 * y)
  }

  /** The logit that moves them is that of the piecewise linear curve through the points. */
  ghost predicate IsProbability(card: Card, x: real, p: Option<real>)
    requires card.Valid()
  {
    exists y :: LiesOn(card.points, card.logits, x, y) && p == LogisticAt(card, x, y)
  }

  lemma ProbabilityIsMoved(m: Curve, raw: real, residual: real)
    ensures m.Probability(raw, residual) == MovedLogistic(m, raw, residual)
  {
    LogitIsNumberIff(m, raw);
    if 0.0 < raw < 1.0 {
      var rest := 1.0 - raw;
      assert (raw / rest) * rest == raw;
      assert raw / rest != 0.0;
    }
  }

  /** The probability at a time is the one of those weights and that line. */
  lemma AtIsProbability(card: Card, x: real)
    requires card.Valid() && 1.0 <= x <= card.Last()
    ensures IsProbability(card, x, card.At(x))
  {
    ProbeInside(card.points, x);
    var right := SearchSortedLeft(card.points, x);
    var y := Interpolated(card.points, card.logits, x, right);
    InterpolatedOnLine(card.points, card.logits, x, right);
    assert LiesOn(card.points, card.logits, x, y);
    RawIs(card, x);
    ProbabilityIsMoved(card.m, card.Raw(x), card.Residual(x));
  }

  lemma RawIs(card: Card, x: real)
    requires card.Valid()
    ensures card.Raw(x) == 0.00001 + 0.99998 * DecaySum(card, x, |card.weights|)
  {
    DecaySumIs(card, x, |card.weights|);
  }

  lemma LineIsUnique(xl: real, yl: real, xr: real, yr: real, x: real, y: real, z: real)
    requires xl < x <= xr && OnLine(xl, yl, xr, yr, x, y) && OnLine(xl, yl, xr, yr, x, z)
    ensures y == z
  {
    var part, rest := x - xl, xr - x;
    assert (y - yl) * rest - (z - yl) * rest == (y - z) * rest;
    assert (yr - y) * part - (yr - z) * part == (z - y) * part;
    assert (y - z) * rest + (y - z) * part == (y - z) * (rest + part);
    if y > z {
      ScaledAscends(0.0, y - z, rest + part);
    } else if z > y {
      ScaledAscends(y - z, 0.0, rest + part);
    }
  }

  lemma ValueIsUnique(points: seq<real>, values: seq<real>, x: real, y: real, z: real)
    requires Ascending(points) && |values| == |points| && LiesOn(points, values, x, y) && LiesOn(points, values, x, z)
    ensures y == z
  {
    var k :| 0 < k < |points| && points[k - 1] < x <= points[k]
      && OnLine(points[k - 1], values[k - 1], points[k], values[k], x, y);
    var l :| 0 < l < |points| && points[l - 1] < x <= points[l]
      && OnLine(points[l - 1], values[l - 1], points[l], values[l], x, z);
    IntervalIs(points, x, k);
    IntervalIs(points, x, l);
    LineIsUnique(points[k - 1], values[k - 1], points[k], values[k], x, y, z);
  }

  /** A time has one probability. */
  lemma ProbabilityIsUnique(card: Card, x: real, p: Option<real>, q: Option<real>)
    requires card.Valid() && IsProbability(card, x, p) && IsProbability(card, x, q)
    ensures p == q
  {
    var y :| LiesOn(card.points, card.logits, x, y) && p == LogisticAt(card, x, y);
    var z :| LiesOn(card.points, card.logits, x, z) && q == LogisticAt(card, x, z);
    ValueIsUnique(card.points, card.logits, x, y, z);
  }

  /** The interval of a time is the one a search for it finds. */
  lemma IntervalIs(points: seq<real>, x: real, k: nat)
    requires Ascending(points) && 0 < k < |points| && points[k - 1] < x <= points[k]
    ensures k == SearchSortedLeft(points, x)
  {
  }

  /** Times before the first second count as it; times beyond the point space are refused. */
  method CurveProbability(card: Card, elapsedSeconds: real) returns (r: Result<Option<real>, CurveError>)
    requires card.Valid()
    ensures var elapsed := if elapsedSeconds < 1.0 then 1.0 else elapsedSeconds;
      if elapsed > card.Last() then r == Err(BeyondPoints)
      else r == Ok(card.At(elapsed)) && IsProbability(card, elapsed, r.value)
  {
    var elapsed := if elapsedSeconds < 1.0 then 1.0 else elapsedSeconds;
    if elapsed > card.Last() {
      return Err(BeyondPoints);
    }
    var sum := SumDecays(card, elapsed);
    var residual := FindResidual(card, elapsed);
    AtIsProbability(card, elapsed);
    return Ok(card.m.Probability(RawOf(sum), residual));
  }

  method FindResidual(card: Card, elapsed: real) returns (residual: real)
    requires card.Valid() && 1.0 <= elapsed <= card.Last()
    ensures residual == card.Residual(elapsed)
  {
    ProbeInside(card.points, elapsed);
    var right := SearchSortedLeft(card.points, elapsed);
    residual := PROBABILITY_EPS + PROBABILITY_SCALE * Interpolated(card.points, card.logits, elapsed, right);
  }

  // ----- The scan and the bisection -----

  /** The scan times: the first second, then every point after it. */
  function ScanTimes(points: seq<real>): seq<real> {
    [1.0] + Later(points)
  }

  function Later(points: seq<real>): seq<real> {
    if points == [] then []
    else Later(points[..|points| - 1]) + (if points[|points| - 1] > 1.0 then [points[|points| - 1]] else [])
  }

  predicate AscendingIn(times: seq<real>, low: real, high: real) {
    && (forall i :: 0 <= i < |times| ==> low < times[i] <= high)
    && (forall i, j :: 0 <= i < j < |times| ==> times[i] < times[j])
  }

  lemma {:induction false} LaterAscends(points: seq<real>, bound: real)
    requires forall i, j :: 0 <= i < j < |points| ==> points[i] < points[j]
    requires forall i :: 0 <= i < |points| ==> points[i] <= bound
    ensures AscendingIn(Later(points), 1.0, bound)
  {
    if points != [] {
      var front, last := points[..|points| - 1], points[|points| - 1];
      LaterAscends(front, bound);
      LaterBelow(front, last);
      AscendingSnoc(Later(front), last, 1.0, bound);
      assert last <= 1.0 ==> Later(points) == Later(front);
    }
  }

  lemma AscendingSnoc(times: seq<real>, last: real, low: real, high: real)
    requires AscendingIn(times, low, high) && last <= high && forall i :: 0 <= i < |times| ==> times[i] < last
    ensures last > low ==> AscendingIn(times + [last], low, high)
  {
  }

  lemma {:induction false} LaterBelow(points: seq<real>, last: real)
    requires forall i :: 0 <= i < |points| ==> points[i] < last
    ensures forall i :: 0 <= i < |Later(points)| ==> Later(points)[i] < last
  {
    if points != [] {
      LaterBelow(points[..|points| - 1], last);
    }
  }

  lemma ScanAscends(points: seq<real>)
    requires Ascending(points)
    ensures forall i :: 0 <= i < |ScanTimes(points)| ==> 1.0 <= ScanTimes(points)[i] <= points[|points| - 1]
    ensures forall i, j :: 0 <= i < j < |ScanTimes(points)| ==> ScanTimes(points)[i] < ScanTimes(points)[j]
  {
    var last := points[|points| - 1];
    forall i | 0 <= i < |points| ensures points[i] <= last {
      assert i < |points| - 1 ==> points[i] < points[|points| - 1];
    }
    LaterAscends(points, last);
    var scan, later := ScanTimes(points), Later(points);
    assert forall i :: 0 < i < |scan| ==> scan[i] == later[i - 1];
  }

  function Pow2(n: nat): real {
    if n == 0 then 1.0 else 2.0 * Pow2(n - 1)
  }

  /** A width after some bisections. */
  function Halved(width: real, n: nat): real {
    if n == 0 then width else Halved(width, n - 1) / 2.0
  }

  lemma {:induction false} HalvedIs(width: real, n: nat)
    ensures Pow2(n) > 0.0 && Halved(width, n) * Pow2(n) == width
  {
    if n > 0 {
      HalvedIs(width, n - 1);
    }
  }

  lemma {:induction false} PowersMultiply(a: nat, b: nat)
    ensures Pow2(a + b) == Pow2(a) * Pow2(b)
  {
    if b > 0 {
      PowersMultiply(a, b - 1);
      assert Pow2(a) * (2.0 * Pow2(b - 1)) == 2.0 * (Pow2(a) * Pow2(b - 1));
    }
  }

  lemma HalvedThirtyTwo(width: real, gap: real, n: nat)
    requires n == 32 && gap == Halved(width, n)
    ensures gap == width / GRID_CELLS
  {
    HalvedIs(width, n);
    assert Pow2(8) == 256.0 && Pow2(16) == 65536.0;
    PowersMultiply(16, 16);
  }

  /** A bracket: not below the target on the left, not at or above it on the right. */
  ghost predicate Bracket(c: Recall, target: real, lo: real, hi: real)
    requires c.Valid()
  {
    1.0 <= lo < hi <= c.Last() && !c.Below(lo, target) && !c.AtLeast(hi, target)
  }

  /** The program's two comparisons with a probability, false where it is not a number. */
  method Compare(card: Card, ghost c: Recall, time: real, target: real) returns (below: bool, atLeast: bool)
    requires card.Valid() && 1.0 <= time <= card.Last() && Follows(c, card)
    ensures below == c.Below(time, target) && atLeast == c.AtLeast(time, target)
  {
    var probability := CurveProbability(card, time);
    assert probability == Ok(card.At(time));
    below := probability.value.Some? && probability.value.value < target;
    atLeast := probability.value.Some? && probability.value.value >= target;
  }

  /** One bisection: the probe lies inside the point space, so it is not refused. */
  method Halve(card: Card, ghost c: Recall, target: real, left: real, right: real) returns (lo: real, hi: real)
    requires card.Valid() && Follows(c, card) && Bracket(c, target, left, right)
    ensures left <= lo < hi <= right && hi - lo == (right - left) / 2.0
    ensures Bracket(c, target, lo, hi) && (hi < right ==> c.Below(hi, target))
  {
    var mid := (left + right) * 0.5;
    var below, atLeast := Compare(card, c, mid, target);
    if below {
      return left, mid;
    }
    return mid, right;
  }

  method BisectTimes(card: Card, ghost c: Recall, target: real, left: real, right: real, steps: nat)
    returns (r: real, ghost low: real)
    requires card.Valid() && Follows(c, card) && Bracket(c, target, left, right)
    ensures left <= low < r <= right && Bracket(c, target, low, r)
    ensures r - low == Halved(right - left, steps)
    ensures r < right ==> c.Below(r, target)
  {
    var lo, hi := left, right;
    for k := 0 to steps
      invariant left <= lo < hi <= right && Bracket(c, target, lo, hi)
      invariant hi - lo == Halved(right - left, k)
      invariant hi < right ==> c.Below(hi, target)
    {
      lo, hi := Halve(card, c, target, lo, hi);
    }
    return hi, lo;
  }

  method Bisect(card: Card, ghost c: Recall, target: real, left: real, right: real) returns (r: real, ghost low: real)
    requires card.Valid() && Follows(c, card) && Bracket(c, target, left, right)
    ensures left <= low < r <= right && Bracket(c, target, low, r)
    ensures r - low == (right - left) / GRID_CELLS
    ensures r < right ==> c.Below(r, target)
  {
    var steps := 32;
    r, low := BisectTimes(card, c, target, left, right, steps);
    HalvedThirtyTwo(right - left, r - low, steps);
  }

  // ----- The answer -----

  /** The scan stopped at its time `i`, and the bisection of the interval before it ended on `lo` and `t`. */
  ghost predicate FoundAt(c: Recall, target: real, t: real, i: nat, lo: real)
    requires c.Valid()
  {
    var scan := ScanTimes(c.points);
    && 0 < i < |scan|
    && !c.Below(1.0, target) && (forall j :: 0 < j < i ==> c.AtLeast(scan[j], target)) && !c.AtLeast(scan[i], target)
    && scan[i - 1] <= lo < t <= scan[i] && t - lo == (scan[i] - scan[i - 1]) / GRID_CELLS
    && Bracket(c, target, lo, t)
    && (t < scan[i] ==> c.Below(t, target))
  }

  ghost predicate Answer(c: Recall, target: real, answer: Option<real>)
    requires c.Valid()
  {
    var scan := ScanTimes(c.points);
    match answer
    case None => !c.Below(1.0, target) && forall j :: 0 < j < |scan| ==> c.AtLeast(scan[j], target)
    case Some(t) => (t == 1.0 && c.Below(t, target)) || exists i, lo :: FoundAt(c, target, t, i, lo)
  }

  method CollectScanTimes(points: seq<real>) returns (scan: seq<real>)
    ensures scan == ScanTimes(points)
  {
    scan := [1.0];
    for k := 0 to |points|
      invariant scan == ScanTimes(points[..k])
    {
      assert points[..k + 1][..k] == points[..k];
      if points[k] > 1.0 {
        scan := scan + [points[k]];
      }
    }
    assert points[..|points|] == points;
  }

  method SearchInterval(card: Card, ghost c: Recall, target: real) returns (answer: Option<real>)
    requires card.Valid() && Follows(c, card)
    ensures Answer(c, target, answer)
  {
    var scan := CollectScanTimes(card.points);
    ScanAscends(card.points);
    var below, atLeast := Compare(card, c, 1.0, target);
    if below {
      return Some(1.0);
    }
    var previous := 1.0;
    for i := 1 to |scan|
      invariant previous == scan[i - 1]
      invariant !c.Below(1.0, target) && forall j :: 0 < j < i ==> c.AtLeast(scan[j], target)
    {
      below, atLeast := Compare(card, c, scan[i], target);
      if atLeast {
        previous := scan[i];
      } else {
        var t, lo := Bisect(card, c, target, previous, scan[i]);
        assert FoundAt(c, target, t, i, lo);
        return Some(t);
      }
    }
    return None;
  }

  function CardOf(m: Curve, logits: seq<real>, weights: seq<real>): Card {
    Card(m, logits, weights, SSpace(m), PointSpace(m))
  }

  /** The strengths and the times of the points, in seconds, spread exponentially over 128 steps. */
  lemma CardSpaces(m: Curve, logits: seq<real>, weights: seq<real>, i: nat)
    requires i < 128
    ensures var card := CardOf(m, logits, weights);
      && card.m == m && card.logits == logits && card.weights == weights && |card.s| == |card.points| == 128
      && card.s[i] == 0.1 + (m.exp(18.5 / 127.0 * i as real) - 1.0) * m.exp(3.5)
      && card.points[i] == 0.5 + (m.exp(18.5 / 127.0 * i as real) - 1.0) * m.exp(2.5)
  {
  }

  /** Inputs of the wrong size and retentions outside (0, 1) are refused; every other input gets an answer. */
  method Interval(m: Curve, logits: seq<real>, weights: seq<real>, retention: real)
    returns (r: Result<Option<real>, CurveError>)
    requires m.Sound()
    ensures |logits| != NUM_POINTS ==> r == Err(WrongLogits)
    ensures |logits| == NUM_POINTS && |weights| != NUM_CURVES ==> r == Err(WrongWeights)
    ensures |logits| == NUM_POINTS && |weights| == NUM_CURVES && !(0.0 < retention < 1.0) ==> r == Err(BadRetention)
    ensures |logits| == NUM_POINTS && |weights| == NUM_CURVES && 0.0 < retention < 1.0 ==>
      var card := CardOf(m, logits, weights);
      && card.Valid() && r.Ok? && Answer(card.Curve(), retention, r.value)
      && forall t :: 1.0 <= t <= card.Last() ==> IsProbability(card, t, card.Curve().at(t))
  {
    if |logits| != NUM_POINTS {
      return Err(WrongLogits);
    }
    if |weights| != NUM_CURVES {
      return Err(WrongWeights);
    }
    if retention <= 0.0 || retention >= 1.0 {
      return Err(BadRetention);
    }
    PointsAscend(m);
    SpacePositive(m);
    var card := CardOf(m, logits, weights);
    assert Follows(card.Curve(), card);
    forall t | 1.0 <= t <= card.Last() ensures IsProbability(card, t, card.Curve().at(t)) {
      AtIsProbability(card, t);
    }
    var answer := SearchInterval(card, card.Curve(), retention);
    return Ok(answer);
  }

  /** An answer lies below the target exactly when its probability is a number. */
  lemma AnswerIsBelow(c: Recall, target: real, t: real)
    requires c.Valid() && Answer(c, target, Some(t))
    ensures 1.0 <= t <= c.Last() && (c.Below(t, target) <==> c.Number(t))
  {
    ScanAscends(c.points);
  }

  // ----- When an answer brackets the target -----

  ghost predicate SoundAt(c: Recall, target: real, t: real, i: nat, lo: real)
    requires c.Valid()
  {
    FoundAt(c, target, t, i, lo) && c.AtLeast(1.0, target) && c.AtLeast(lo, target) && c.Below(t, target)
  }

  /** What an answer means: all scan times at or above the target, or a first time below it behind one that is not. */
  ghost predicate SoundAnswer(c: Recall, target: real, answer: Option<real>)
    requires c.Valid()
  {
    var scan := ScanTimes(c.points);
    match answer
    case None => forall j :: 0 <= j < |scan| ==> c.AtLeast(scan[j], target)
    case Some(t) => (t == 1.0 && c.Below(t, target)) || exists i, lo :: SoundAt(c, target, t, i, lo)
  }

  ghost predicate AllNumbers(c: Recall)
    requires c.Valid()
  {
    forall x :: 1.0 <= x <= c.Last() ==> c.Number(x)
  }

  /** An answer lies below the target when the probabilities at the scan times are numbers. */
  lemma ScannedNumbersSuffice(c: Recall, target: real, t: real)
    requires c.Valid() && Answer(c, target, Some(t))
    requires forall j :: 0 <= j < |ScanTimes(c.points)| ==> c.Number(ScanTimes(c.points)[j])
    ensures 1.0 <= t <= c.Last() && c.Below(t, target)
  {
    ScanAscends(c.points);
    if !(t == 1.0 && c.Below(t, target)) {
      var i: nat, lo: real :| FoundAt(c, target, t, i, lo);
      assert c.Number(ScanTimes(c.points)[i]);
    }
  }

  /** Where every probability is a number every answer means what it says. */
  lemma NumbersMakeSound(c: Recall, target: real, answer: Option<real>)
    requires c.Valid() && Answer(c, target, answer) && AllNumbers(c)
    ensures SoundAnswer(c, target, answer)
  {
    ScanAscends(c.points);
    assert c.Number(1.0);
    if answer.Some? && !(answer.value == 1.0 && c.Below(answer.value, target)) {
      var t := answer.value;
      var i: nat, lo: real :| FoundAt(c, target, t, i, lo);
      assert c.Number(lo) && c.Number(t);
      assert SoundAt(c, target, t, i, lo);
    }
  }

  predicate NonNegative(weights: seq<real>) {
    forall i :: 0 <= i < |weights| ==> weights[i] >= 0.0
  }

  lemma {:induction false} SumsOrdered(a: seq<real>, b: seq<real>, c: seq<real>, n: nat)
    requires n <= |a| == |b| == |c| && forall i :: 0 <= i < n ==> 0.0 <= a[i] <= b[i] <= c[i]
    ensures 0.0 <= SumTo(a, n) <= SumTo(b, n) <= SumTo(c, n)
  {
    if n > 0 {
      SumsOrdered(a, b, c, n - 1);
    }
  }

  /** Decays fall with time, between one and nothing. */
  lemma DecayFalls(m: Curve, s: seq<real>, x: real, y: real, i: nat)
    requires m.Sound() && Positive(s) && 0.0 <= x <= y && i < |s|
    ensures 0.0 <= Decays(m, s, y)[i] <= Decays(m, s, x)[i] <= 1.0
  {
    QuotientGrows(x, y, s[i]);
  }

  /** A weighted decay falls with time, from at most the weights' sum, and never below zero. */
  lemma WeightedDecayFalls(m: Curve, weights: seq<real>, s: seq<real>, x: real, y: real)
    requires m.Sound() && NonNegative(weights) && Positive(s) && |weights| == |s| && 0.0 <= x <= y
    ensures 0.0 <= WeightedDecay(m, weights, s, y) <= WeightedDecay(m, weights, s, x) <= SumTo(weights, |weights|)
  {
    var high, low := Decays(m, s, x), Decays(m, s, y);
    var a, b := Times(weights, low), Times(weights, high);
    forall i | 0 <= i < |s| ensures 0.0 <= a[i] <= b[i] <= weights[i] {
      DecayFalls(m, s, x, y, i);
      TermFalls(weights, high, low, i);
    }
    SumsOrdered(a, b, weights, |s|);
  }

  lemma TermFalls(weights: seq<real>, high: seq<real>, low: seq<real>, i: nat)
    requires |weights| == |high| == |low| && i < |weights| && weights[i] >= 0.0 && 0.0 <= low[i] <= high[i] <= 1.0
    ensures 0.0 <= Times(weights, low)[i] <= Times(weights, high)[i] <= weights[i]
  {
    var w, h, l := weights[i], high[i], low[i];
    WeightedTerm(w, h, l);
    assert Times(weights, low)[i] == w * l && Times(weights, high)[i] == w * h;
  }

  lemma QuotientGrows(x: real, y: real, s: real)
    requires 0.0 <= x <= y && s > 0.0
    ensures 0.0 <= x / s <= y / s
  {
    var p, q := x / s, y / s;
    assert p * s == x && q * s == y;
    if q < p {
      ScaledAscends(q, p, s);
    }
    if p < 0.0 {
      ScaledAscends(p, 0.0, s);
    }
  }

  lemma ScaledKeepsOrder(a: real, b: real, scale: real)
    requires a <= b && scale >= 0.0
    ensures a * scale <= b * scale
  {
    if a < b && scale > 0.0 {
      ScaledAscends(a, b, scale);
    }
  }

  lemma WeightedTerm(w: real, high: real, low: real)
    requires w >= 0.0 && 0.0 <= low <= high <= 1.0
    ensures 0.0 <= w * low <= w * high <= w
  {
    ScaledKeepsOrder(0.0, low, w);
    ScaledKeepsOrder(low, high, w);
    ScaledKeepsOrder(high, 1.0, w);
    assert w * low == low * w && w * high == high * w;
  }

  /** With non-negative weights every probability is a number exactly when the one at the first second is. */
  lemma FirstNumberSuffices(card: Card)
    requires card.Valid() && card.m.Sound() && NonNegative(card.weights)
    ensures AllNumbers(card.Curve()) <==> card.Raw(1.0) <= 1.0
    ensures card.Curve().Number(1.0) <==> card.Raw(1.0) <= 1.0
  {
    var c := card.Curve();
    forall x | 1.0 <= x <= card.Last()
      ensures card.Raw(x) <= card.Raw(1.0) && (c.Number(x) <==> card.Raw(x) <= 1.0)
    {
      WeightedDecayFalls(card.m, card.weights, card.s, 1.0, x);
      LogitIsNumberIff(card.m, card.Raw(x));
    }
    assert c.Number(1.0) <==> card.Raw(1.0) <= 1.0;
  }

  /**
   With non-negative weights the answers mean what they say exactly when the raw probability at one second is at
   most 1.
   */
  lemma AnswerIsSoundIff(card: Card, target: real, answer: Option<real>)
    requires card.Valid() && card.m.Sound() && NonNegative(card.weights) && Answer(card.Curve(), target, answer)
    ensures SoundAnswer(card.Curve(), target, answer) <==> card.Raw(1.0) <= 1.0
  {
    FirstNumberSuffices(card);
    if card.Raw(1.0) <= 1.0 {
      NumbersMakeSound(card.Curve(), target, answer);
    } else {
      NoFirstNumberMisleads(card.Curve(), target, answer);
    }
  }

  lemma NoFirstNumberMisleads(c: Recall, target: real, answer: Option<real>)
    requires c.Valid() && !c.Number(1.0)
    ensures !SoundAnswer(c, target, answer)
  {
    assert ScanTimes(c.points)[0] == 1.0;
  }

  /** The weights the model produces, non-negative and of sum 1, meet that condition. */
  lemma SoftmaxIsSound(card: Card, target: real, answer: Option<real>)
    requires card.Valid() && card.m.Sound() && Answer(card.Curve(), target, answer)
    requires NonNegative(card.weights) && SumTo(card.weights, |card.weights|) <= 1.0
    ensures SoundAnswer(card.Curve(), target, answer)
  {
    RawAtMostOne(card);
    AnswerIsSoundIff(card, target, answer);
  }

  lemma RawAtMostOne(card: Card)
    requires card.Valid() && card.m.Sound() && NonNegative(card.weights)
    requires SumTo(card.weights, |card.weights|) <= 1.0
    ensures card.Raw(1.0) <= 1.0
  {
    WeightedDecayFalls(card.m, card.weights, card.s, 1.0, 1.0);
  }

  // ----- Weights for which every answer misleads -----

  /** A curve that never decays, with weights of sum 128. */
  function Overweight(): Card {
    CardOf(Curve(x => 1.0 + x, _ => 1.0, x => x, x => x), seq(NUM_POINTS, _ => 0.0), seq(NUM_CURVES, _ => 1.0))
  }

  lemma OverweightIsValid()
    ensures Overweight().m.Sound() && Overweight().Valid()
  {
    var m := Overweight().m;
    PointsAscend(m);
    SpacePositive(m);
  }

  lemma {:induction false} SumOfOnes(t: seq<real>, n: nat)
    requires n <= |t| && forall i :: 0 <= i < n ==> t[i] == 1.0
    ensures SumTo(t, n) == n as real
  {
    if n > 0 {
      SumOfOnes(t, n - 1);
    }
  }

  lemma OverweightRaw(card: Card, elapsed: real)
    requires card == Overweight() && card.Valid()
    ensures card.Raw(elapsed) > 1.0
  {
    var t := Times(card.weights, Decays(card.m, card.s, elapsed));
    assert forall i :: 0 <= i < |t| ==> t[i] == 1.0;
    SumOfOnes(t, |t|);
  }

  /** Accepted inputs for which the program always answers, and always with a time of no probability at all. */
  lemma OverweightMisleads(retention: real, answer: Option<real>)
    requires Overweight().Valid() && Answer(Overweight().Curve(), retention, answer)
    ensures answer.Some? && 1.0 <= answer.value <= Overweight().Last() && Overweight().At(answer.value).None?
    ensures !SoundAnswer(Overweight().Curve(), retention, answer)
  {
    var card := Overweight();
    OverweightIsValid();
    forall x | 1.0 <= x <= card.Last() ensures card.At(x).None? {
      OverweightRaw(card, x);
      LogitIsNumberIff(card.m, card.Raw(x));
    }
    NoNumbersMislead(card.Curve(), retention, answer);
  }

  lemma NoNumbersMislead(c: Recall, target: real, answer: Option<real>)
    requires c.Valid() && Answer(c, target, answer)
    requires forall x :: 1.0 <= x <= c.Last() ==> !c.Number(x)
    ensures answer.Some? && 1.0 <= answer.value <= c.Last() && !SoundAnswer(c, target, answer)
  {
    ScanAscends(c.points);
    NoFirstNumberMisleads(c, target, answer);
    LastIsScanned(c.points);
    assert !c.Number(c.Last());
    if answer.Some? {
      AnswerIsBelow(c, target, answer.value);
    }
  }

  // ----- Non-increasing curves -----

  ghost predicate Decreasing(c: Recall)
    requires c.Valid()
  {
    AllNumbers(c) && forall x, y :: 1.0 <= x <= y <= c.Last() ==>
        c.Number(x) && c.Number(y) && c.at(x).value >= c.at(y).value
  }

  /**
   On a non-increasing curve the crossing lies between `lo` and the answer, which differ by a 2^32nd of their
   interval.
   */
  lemma CrossingIsBracketed(c: Recall, target: real, t: real, i: nat, lo: real)
    requires c.Valid() && Decreasing(c) && FoundAt(c, target, t, i, lo)
    ensures forall x :: 1.0 <= x <= lo ==> c.AtLeast(x, target)
    ensures forall x :: t <= x <= c.Last() ==> c.Below(x, target)
  {
    assert c.Number(lo) && c.Number(t);
    ScanAscends(c.points);
    assert c.Number(ScanTimes(c.points)[i]);
    forall x | 1.0 <= x <= lo ensures c.AtLeast(x, target) {
      assert c.Number(x) && c.at(x).value >= c.at(lo).value;
    }
    forall x | t <= x <= c.Last() ensures c.Below(x, target) {
      assert c.Number(x) && c.at(t).value >= c.at(x).value;
    }
  }

  lemma {:induction false} LastIsScanned(points: seq<real>)
    requires points != [] && points[|points| - 1] > 1.0
    ensures ScanTimes(points)[|ScanTimes(points)| - 1] == points[|points| - 1] && |ScanTimes(points)| > 1
  {
  }

  /** On a non-increasing curve there is an answer exactly when some time is below the target. */
  lemma AnswerExistsIff(c: Recall, target: real, answer: Option<real>)
    requires c.Valid() && Decreasing(c) && Answer(c, target, answer)
    ensures answer.Some? <==> exists x :: 1.0 <= x <= c.Last() && c.Below(x, target)
  {
    ScanAscends(c.points);
    LastIsScanned(c.points);
    if answer.Some? {
      AnswerIsBelow(c, target, answer.value);
      assert c.Number(answer.value);
    } else {
      forall x | 1.0 <= x <= c.Last() ensures !c.Below(x, target) {
        assert c.Number(x) && c.at(x).value >= c.at(c.Last()).value;
      }
    }
  }
}
