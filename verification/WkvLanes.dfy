/** The lane-split kernels: full lane vectors first, reduced once, then the tail. */
module WkvLanes {
  import opened Wrappers
  import opened Lists
  import opened RealVectors
  import opened WkvRow

  method LinearDot(xs: seq<real>, weights: seq<real>, lanes: nat) returns (output: real)
    requires |xs| == |weights| && lanes > 0
    ensures output == Dot(xs, weights)
  {
    ghost var t := Times(xs, weights);
    var at, acc := 0, Splat(lanes, 0.0);
    NothingAccumulated(lanes);
    while at + lanes <= |xs|
      invariant at <= |xs| && |acc| == lanes && ReduceSum(acc) == SumTo(t, at)
    {
      acc := Accumulate(Lane(xs, at, lanes), Lane(weights, at, lanes), acc, t, at);
      at := at + lanes;
    }
    output := ReduceSum(acc);
    for j := at to |xs|
      invariant output == SumTo(t, j)
    {
      output := xs[j] * weights[j] + output;
    }
  }

  method LinearDotPair(leftXs: seq<real>, leftWeights: seq<real>, rightXs: seq<real>, rightWeights: seq<real>,
                       lanes: nat)
    returns (left: real, right: real)
    requires |leftXs| == |leftWeights| == |rightXs| == |rightWeights| && lanes > 0
    ensures left == Dot(leftXs, leftWeights) && right == Dot(rightXs, rightWeights)
  {
    ghost var t, u := Times(leftXs, leftWeights), Times(rightXs, rightWeights);
    var at, leftAcc, rightAcc := 0, Splat(lanes, 0.0), Splat(lanes, 0.0);
    NothingAccumulated(lanes);
    while at + lanes <= |leftXs|
      invariant at <= |leftXs| && |leftAcc| == |rightAcc| == lanes
      invariant ReduceSum(leftAcc) == SumTo(t, at) && ReduceSum(rightAcc) == SumTo(u, at)
    {
      leftAcc := Accumulate(Lane(leftXs, at, lanes), Lane(leftWeights, at, lanes), leftAcc, t, at);
      rightAcc := Accumulate(Lane(rightXs, at, lanes), Lane(rightWeights, at, lanes), rightAcc, u, at);
      at := at + lanes;
    }
    left, right := PairTail(leftXs, leftWeights, rightXs, rightWeights, at, ReduceSum(leftAcc), ReduceSum(rightAcc));
  }

  /** The products past the last whole lane vector. */
  method PairTail(leftXs: seq<real>, leftWeights: seq<real>, rightXs: seq<real>, rightWeights: seq<real>, at: nat,
                  leftSum: real, rightSum: real)
    returns (left: real, right: real)
    requires |leftXs| == |leftWeights| == |rightXs| == |rightWeights| && at <= |leftXs|
    requires leftSum == SumTo(Times(leftXs, leftWeights), at) && rightSum == SumTo(Times(rightXs, rightWeights), at)
    ensures left == Dot(leftXs, leftWeights) && right == Dot(rightXs, rightWeights)
  {
    ghost var t, u := Times(leftXs, leftWeights), Times(rightXs, rightWeights);
    left, right := leftSum, rightSum;
    for j := at to |leftXs|
      invariant left == SumTo(t, j) && right == SumTo(u, j)
    {
      left := leftXs[j] * leftWeights[j] + left;
      right := rightXs[j] * rightWeights[j] + right;
    }
  }

  // ----- The recurrence of a row -----

  /** One lane vector of deformed keys. */
  function KeyLanes(h: Head, reuse: bool, at: nat, lanes: nat): (r: seq<real>)
    requires h.Sized(|h.r|) && at + lanes <= |h.r|
    ensures |r| == lanes && forall l :: 0 <= l < lanes ==> r[l] == DeformedKey(h, reuse, at + l)
  {
    if reuse then Lane(h.k, at, lanes) else Mul(Lane(h.a, at, lanes), Lane(h.kd, at, lanes))
  }

  /** One lane vector of the next row. */
  method NextLanes(row: seq<real>, h: Head, value: real, o: Options, left: real, skip: bool, at: nat, lanes: nat)
    returns (next: seq<real>)
    requires h.Sized(|row|) && at + lanes <= |row|
    requires skip == Skips(o, Dot(row, h.kd)) && (skip || left == Dot(row, h.kd))
    ensures |next| == lanes && forall l :: 0 <= l < lanes ==> next[l] == NextRow(row, h, value, o)[at + l]
  {
    var decay := Mul(Lane(row, at, lanes), Lane(h.w, at, lanes));
    if skip {
      next := MulAdd(Splat(lanes, value), Lane(h.k, at, lanes), decay);
      forall l | 0 <= l < lanes ensures next[l] == NextRow(row, h, value, o)[at + l] {
        SkippedCell(row, h, value, o, at + l);
      }
    } else {
      next := DeformedLanes(row, h, value, o, left, at, decay);
    }
  }

  method DeformedLanes(row: seq<real>, h: Head, value: real, o: Options, left: real, at: nat, decay: seq<real>)
    returns (next: seq<real>)
    requires h.Sized(|row|) && at + |decay| <= |row| && decay == Mul(Lane(row, at, |decay|), Lane(h.w, at, |decay|))
    requires !Skips(o, Dot(row, h.kd)) && left == Dot(row, h.kd)
    ensures |next| == |decay| && forall l :: 0 <= l < |decay| ==> next[l] == NextRow(row, h, value, o)[at + l]
  {
    var lanes := |decay|;
    var key := KeyLanes(h, o.reuse, at, lanes);
    var base := Minus(decay, Mul(Splat(lanes, left), key));
    next := MulAdd(Splat(lanes, value), Lane(h.k, at, lanes), base);
    forall l | 0 <= l < lanes ensures next[l] == NextRow(row, h, value, o)[at + l] {
      DeformedCell(row, h, value, o, at + l);
    }
  }

  lemma SkippedCell(row: seq<real>, h: Head, value: real, o: Options, j: nat)
    requires h.Sized(|row|) && j < |row| && Skips(o, Dot(row, h.kd))
    ensures NextRow(row, h, value, o)[j] == value * h.k[j] + row[j] * h.w[j]
  {
  }

  lemma DeformedCell(row: seq<real>, h: Head, value: real, o: Options, j: nat)
    requires h.Sized(|row|) && j < |row| && !Skips(o, Dot(row, h.kd))
    ensures NextRow(row, h, value, o)[j]
         == value * h.k[j] + (row[j] * h.w[j] - Dot(row, h.kd) * DeformedKey(h, o.reuse, j))
  {
  }

  /** One cell of the tail. */
  method NextTail(row: seq<real>, h: Head, value: real, o: Options, left: real, skip: bool, j: nat) returns (next: real)
    requires h.Sized(|row|) && j < |row|
    requires skip == Skips(o, Dot(row, h.kd)) && (skip || left == Dot(row, h.kd))
    ensures next == NextRow(row, h, value, o)[j]
  {
    if skip {
      next := value * h.k[j] + row[j] * h.w[j];
    } else {
      var key := if o.reuse then h.k[j] else h.a[j] * h.kd[j];
      next := value * h.k[j] + (row[j] * h.w[j] - left * key);
    }
  }

  /** The deformation term is not even computed when it is skipped outright. */
  method LeftLanes(row: seq<real>, h: Head, o: Options, lanes: nat) returns (left: real, skip: bool)
    requires h.Sized(|row|) && lanes > 0
    ensures skip == Skips(o, Dot(row, h.kd)) && (skip || left == Dot(row, h.kd))
  {
    left := 0.0;
    if !o.skip {
      left := LinearDot(row, h.kd, lanes);
    }
    skip := o.skip || (o.threshold.Some? && Abs(left) <= o.threshold.value);
  }

  method OutputRowLanes(row: seq<real>, h: Head, value: real, o: Options, lanes: nat) returns (output: real)
    requires h.Sized(|row|) && lanes > 0
    ensures output == OutRow(row, h, value, o)
  {
    ghost var target := NextRow(row, h, value, o);
    ghost var t := Times(target, h.r);
    var left, skip := LeftLanes(row, h, o, lanes);
    var at, acc := 0, Splat(lanes, 0.0);
    NothingAccumulated(lanes);
    while at + lanes <= |row|
      invariant at <= |row| && |acc| == lanes && ReduceSum(acc) == SumTo(t, at)
    {
      var next;
      next, acc := ReadOutLanes(row, h, value, o, left, skip, at, acc);
      at := at + lanes;
    }
    output := OutputTail(row, h, value, o, left, skip, at, ReduceSum(acc));
  }

  /** One lane vector of the next row, read out into the accumulators. */
  method ReadOutLanes(row: seq<real>, h: Head, value: real, o: Options, left: real, skip: bool, at: nat, acc: seq<real>)
    returns (next: seq<real>, sum: seq<real>)
    requires h.Sized(|row|) && at + |acc| <= |row|
    requires skip == Skips(o, Dot(row, h.kd)) && (skip || left == Dot(row, h.kd))
    requires ReduceSum(acc) == SumTo(Times(NextRow(row, h, value, o), h.r), at)
    ensures |next| == |acc| && forall l :: 0 <= l < |acc| ==> next[l] == NextRow(row, h, value, o)[at + l]
    ensures |sum| == |acc| && ReduceSum(sum) == SumTo(Times(NextRow(row, h, value, o), h.r), at + |acc|)
  {
    next := NextLanes(row, h, value, o, left, skip, at, |acc|);
    sum := Accumulate(next, Lane(h.r, at, |acc|), acc, Times(NextRow(row, h, value, o), h.r), at);
  }

  method OutputTail(row: seq<real>, h: Head, value: real, o: Options, left: real, skip: bool, at: nat, sum: real)
    returns (output: real)
    requires h.Sized(|row|) && at <= |row|
    requires skip == Skips(o, Dot(row, h.kd)) && (skip || left == Dot(row, h.kd))
    requires sum == SumTo(Times(NextRow(row, h, value, o), h.r), at)
    ensures output == OutRow(row, h, value, o)
  {
    ghost var t := Times(NextRow(row, h, value, o), h.r);
    output := sum;
    for j := at to |row|
      invariant output == SumTo(t, j)
    {
      var next := NextTail(row, h, value, o, left, skip, j);
      output := ReadOutCell(next, h.r[j], output, t, j);
    }
  }

  method ReadOutCell(next: real, r: real, sum: real, ghost t: seq<real>, ghost j: nat) returns (output: real)
    requires j < |t| && t[j] == next * r && sum == SumTo(t, j)
    ensures output == SumTo(t, j + 1)
  {
    output := next * r + sum;
  }

  /** Stores the next lane vector of the values. */
  method StoreLanes(a: array<real>, at: nat, ghost before: seq<real>, ghost values: seq<real>, from: nat,
                    next: seq<real>)
    requires |before| == a.Length && at + |values| <= a.Length && from + |next| <= |values|
    requires forall l :: 0 <= l < |next| ==> next[l] == values[from + l]
    requires a[..] == Overwrite(before, at, values[..from])
    modifies a
    ensures a[..] == Overwrite(before, at, values[..from + |next|])
  {
    Store(a, at + from, next);
    ghost var after := Overwrite(before, at, values[..from + |next|]);
    forall i | 0 <= i < a.Length ensures a[i] == after[i] {
      if at + from <= i < at + from + |next| {
        assert next[i - at - from] == values[from + (i - at - from)];
      }
    }
  }

  method StateOutputRowLanes(row: seq<real>, nextState: array<real>, at: nat, h: Head, value: real, o: Options,
                             lanes: nat)
    returns (output: real)
    requires h.Sized(|row|) && lanes > 0 && at + |row| <= nextState.Length
    modifies nextState
    ensures nextState[..] == Overwrite(old(nextState[..]), at, NextRow(row, h, value, o))
    ensures output == OutRow(row, h, value, o)
  {
    ghost var before, target := nextState[..], NextRow(row, h, value, o);
    ghost var t := Times(target, h.r);
    var left, skip := LeftLanes(row, h, o, lanes);
    var from, acc := 0, Splat(lanes, 0.0);
    NothingAccumulated(lanes);
    while from + lanes <= |row|
      invariant from <= |row| && |acc| == lanes && ReduceSum(acc) == SumTo(t, from)
      invariant nextState[..] == Overwrite(before, at, target[..from])
    {
      var next;
      next, acc := ReadOutLanes(row, h, value, o, left, skip, from, acc);
      StoreLanes(nextState, at, before, target, from, next);
      from := from + lanes;
    }
    output := StateTail(row, nextState, at, h, value, o, left, skip, from, ReduceSum(acc), before);
  }

  /** The cells after the last full lane vector. */
  method StateTail(row: seq<real>, nextState: array<real>, at: nat, h: Head, value: real, o: Options, left: real,
                   skip: bool, from: nat, sum: real, ghost before: seq<real>)
    returns (output: real)
    requires h.Sized(|row|) && at + |row| <= nextState.Length == |before| && from <= |row|
    requires skip == Skips(o, Dot(row, h.kd)) && (skip || left == Dot(row, h.kd))
    requires var target := NextRow(row, h, value, o);
      nextState[..] == Overwrite(before, at, target[..from]) && sum == SumTo(Times(target, h.r), from)
    modifies nextState
    ensures nextState[..] == Overwrite(before, at, NextRow(row, h, value, o))
    ensures output == OutRow(row, h, value, o)
  {
    ghost var target := NextRow(row, h, value, o);
    output := sum;
    for j := from to |row|
      invariant output == SumTo(Times(target, h.r), j)
      invariant nextState[..] == Overwrite(before, at, target[..j])
    {
      var next := NextTail(row, h, value, o, left, skip, j);
      WriteNext(nextState, at, before, target, j, next);
      output := ReadOutCell(next, h.r[j], output, Times(target, h.r), j);
    }
    assert target[..|row|] == target;
  }
}
