/** Sums and dot products over reals, lane vectors, and writes into flat buffers. */
module RealVectors {
  import opened Lists

  /** The sum of the first `n` terms. */
  function SumTo(t: seq<real>, n: nat): real
    requires n <= |t|
  {
    if n == 0 then 0.0 else SumTo(t, n - 1) + t[n - 1]
  }

  function Times(xs: seq<real>, ys: seq<real>): (r: seq<real>)
    requires |xs| == |ys|
    ensures |r| == |xs|
  {
    seq(|xs|, j requires 0 <= j < |xs| => xs[j] * ys[j])
  }

  function Dot(xs: seq<real>, ys: seq<real>): real
    requires |xs| == |ys|
  {
    SumTo(Times(xs, ys), |xs|)
  }

  lemma {:induction false} SumCombines(t: seq<real>, a: seq<real>, b: seq<real>, c: seq<real>, x: real, y: real, n: nat)
    requires n <= |t| && n <= |a| && n <= |b| && n <= |c|
    requires forall j :: 0 <= j < n ==> t[j] == a[j] - x * b[j] + y * c[j]
    ensures SumTo(t, n) == SumTo(a, n) - x * SumTo(b, n) + y * SumTo(c, n)
  {
    if n > 0 {
      SumCombines(t, a, b, c, x, y, n - 1);
      Spread(x, SumTo(b, n - 1), b[n - 1]);
      Spread(y, SumTo(c, n - 1), c[n - 1]);
    }
  }

  lemma {:induction false} SumDiffers(t: seq<real>, a: seq<real>, b: seq<real>, x: real, n: nat)
    requires n <= |t| && n <= |a| && n <= |b| && forall j :: 0 <= j < n ==> t[j] == a[j] - x * b[j]
    ensures SumTo(t, n) == SumTo(a, n) - x * SumTo(b, n)
  {
    if n > 0 {
      SumDiffers(t, a, b, x, n - 1);
      Spread(x, SumTo(b, n - 1), b[n - 1]);
    }
  }

  lemma Spread(x: real, a: real, b: real)
    ensures x * (a + b) == x * a + x * b
  {
  }

  lemma {:induction false} SumOfZeros(t: seq<real>, n: nat)
    requires n <= |t| && forall j :: 0 <= j < n ==> t[j] == 0.0
    ensures SumTo(t, n) == 0.0
  {
    if n > 0 {
      SumOfZeros(t, n - 1);
    }
  }

  method DotScalar(xs: seq<real>, ys: seq<real>) returns (output: real)
    requires |xs| == |ys|
    ensures output == Dot(xs, ys)
  {
    output := 0.0;
    for j := 0 to |xs|
      invariant output == SumTo(Times(xs, ys), j)
    {
      output := output + xs[j] * ys[j];
    }
  }

  // ----- Lane vectors -----

  function Splat(lanes: nat, value: real): (r: seq<real>)
    ensures |r| == lanes
  {
    seq(lanes, _ => value)
  }

  /** The lane vector of a slice that starts at a position. */
  function Lane(xs: seq<real>, at: nat, lanes: nat): (r: seq<real>)
    requires at + lanes <= |xs|
    ensures |r| == lanes && forall l :: 0 <= l < lanes ==> r[l] == xs[at + l]
  {
    xs[at..at + lanes]
  }

  function Mul(x: seq<real>, y: seq<real>): (r: seq<real>)
    requires |x| == |y|
    ensures |r| == |x| && forall l :: 0 <= l < |r| ==> r[l] == x[l] * y[l]
  {
    seq(|x|, l requires 0 <= l < |x| => x[l] * y[l])
  }

  function MulAdd(x: seq<real>, y: seq<real>, acc: seq<real>): (r: seq<real>)
    requires |x| == |y| == |acc|
    ensures |r| == |acc| && forall l :: 0 <= l < |r| ==> r[l] == x[l] * y[l] + acc[l]
  {
    seq(|acc|, l requires 0 <= l < |acc| => x[l] * y[l] + acc[l])
  }

  function Minus(x: seq<real>, y: seq<real>): (r: seq<real>)
    requires |x| == |y|
    ensures |r| == |x| && forall l :: 0 <= l < |r| ==> r[l] == x[l] - y[l]
  {
    seq(|x|, l requires 0 <= l < |x| => x[l] - y[l])
  }

  function ReduceSum(acc: seq<real>): real {
    SumTo(acc, |acc|)
  }

  /** Adding one lane vector of terms to the accumulators adds those terms to their sum. */
  lemma {:induction false} LanesAdd(before: seq<real>, after: seq<real>, t: seq<real>, at: nat, l: nat)
    requires l <= |before| == |after| && at + l <= |t|
    requires forall i :: 0 <= i < l ==> after[i] == before[i] + t[at + i]
    ensures SumTo(after, l) - SumTo(before, l) == SumTo(t, at + l) - SumTo(t, at)
  {
    if l > 0 {
      LanesAdd(before, after, t, at, l - 1);
    }
  }

  lemma NothingAccumulated(lanes: nat)
    ensures ReduceSum(Splat(lanes, 0.0)) == 0.0
  {
    SumOfZeros(Splat(lanes, 0.0), lanes);
  }

  /** One fused multiply and add of lane vectors: the reduced sum grows by their terms. */
  method Accumulate(x: seq<real>, y: seq<real>, acc: seq<real>, ghost t: seq<real>, ghost at: nat)
    returns (next: seq<real>)
    requires |x| == |y| == |acc| && at + |acc| <= |t| && ReduceSum(acc) == SumTo(t, at)
    requires forall l :: 0 <= l < |acc| ==> t[at + l] == x[l] * y[l]
    ensures |next| == |acc| && ReduceSum(next) == SumTo(t, at + |acc|)
  {
    next := MulAdd(x, y, acc);
    LanesAdd(acc, next, t, at, |acc|);
  }

  // ----- Flat buffers -----

  /** Row `i` of a buffer of rows of one size. */
  function RowOf(buffer: seq<real>, size: nat, i: nat): (r: seq<real>)
    requires Offset(i, size) + size <= |buffer|
    ensures |r| == size
  {
    buffer[Offset(i, size)..Offset(i, size) + size]
  }

  lemma {:induction false} RowFits(i: nat, size: nat, rows: nat)
    requires i < rows
    ensures Offset(i, size) + size <= Offset(rows, size)
  {
    if i < rows - 1 {
      RowFits(i, size, rows - 1);
    }
  }

  /** The buffer with the values written from a position on. */
  function Overwrite(buffer: seq<real>, at: nat, values: seq<real>): (r: seq<real>)
    requires at + |values| <= |buffer|
    ensures |r| == |buffer|
    ensures forall i :: 0 <= i < |buffer| ==> r[i] == if at <= i < at + |values| then values[i - at] else buffer[i]
  {
    buffer[..at] + values + buffer[at + |values|..]
  }

  /** Stores a lane vector. */
  method Store(a: array<real>, at: nat, values: seq<real>)
    requires at + |values| <= a.Length
    modifies a
    ensures a[..] == Overwrite(old(a[..]), at, values)
  {
    forall i | 0 <= i < |values| {
      a[at + i] := values[i];
    }
  }

  /** Writes the next one of the values. */
  method WriteNext(a: array<real>, at: nat, ghost before: seq<real>, ghost values: seq<real>, j: nat, value: real)
    requires |before| == a.Length && at + |values| <= a.Length && j < |values| && values[j] == value
    requires a[..] == Overwrite(before, at, values[..j])
    modifies a
    ensures a[..] == Overwrite(before, at, values[..j + 1])
  {
    a[at + j] := value;
  }

  /** Two adjacent writes of a list of values are one. */
  lemma ExtendWrite(before: seq<real>, at: nat, target: seq<real>, base: nat, width: nat)
    requires base + width <= |target| && at + |target| <= |before|
    ensures Overwrite(Overwrite(before, at, target[..base]), at + base, target[base..base + width])
         == Overwrite(before, at, target[..base + width])
  {
  }

  lemma RowJoins(a: seq<real>, size: nat, n: nat)
    requires Offset(n, size) + size <= |a|
    ensures a[..Offset(n + 1, size)] == a[..Offset(n, size)] + RowOf(a, size, n)
  {
  }

  ghost predicate SameRow(a: seq<real>, b: seq<real>, size: nat, i: nat) {
    Offset(i, size) + size <= |a| && |a| == |b| && RowOf(a, size, i) == RowOf(b, size, i)
  }

  /** A buffer of rows is determined by its rows. */
  lemma {:induction false} RowsDetermine(a: seq<real>, b: seq<real>, size: nat, rows: nat, n: nat)
    requires |a| == |b| == Offset(rows, size) && n <= rows && forall i :: 0 <= i < rows ==> SameRow(a, b, size, i)
    ensures Offset(n, size) <= |a| && a[..Offset(n, size)] == b[..Offset(n, size)]
  {
    if n > 0 {
      RowFits(n - 1, size, rows);
      RowsDetermine(a, b, size, rows, n - 1);
      assert SameRow(a, b, size, n - 1);
      RowJoins(a, size, n - 1);
      RowJoins(b, size, n - 1);
    }
  }

  lemma RowOfSplat(size: nat, rows: nat, i: nat)
    requires i < rows
    ensures Offset(i, size) + size <= Offset(rows, size)
    ensures RowOf(Splat(Offset(rows, size), 0.0), size, i) == Splat(size, 0.0)
  {
    RowFits(i, size, rows);
  }

  lemma AppendWrite(before: seq<real>, at: nat, front: seq<real>, last: seq<real>)
    requires at + |front| + |last| <= |before|
    ensures Overwrite(Overwrite(before, at, front), at + |front|, last) == Overwrite(before, at, front + last)
  {
  }

  // ----- Positions in flat buffers -----

  lemma {:induction false} OffsetSplits(a: nat, h: nat, size: nat)
    ensures Offset(a + h, size) == Offset(a, size) + Offset(h, size)
  {
    if h > 0 {
      OffsetSplits(a, h - 1, size);
    }
  }

  lemma {:induction false} OffsetNests(b: nat, heads: nat, size: nat)
    ensures Offset(Offset(b, heads), size) == Offset(b, Offset(heads, size))
  {
    if b > 0 {
      OffsetNests(b - 1, heads, size);
      OffsetSplits(Offset(b - 1, heads), heads, size);
    }
  }

  lemma NestedProduct(b: nat, heads: nat, size: nat)
    ensures b * (heads * size) == Offset(Offset(b, heads), size)
  {
    OffsetIsProduct(heads, size);
    OffsetIsProduct(b, Offset(heads, size));
    OffsetNests(b, heads, size);
  }

  /** Overwriting one row leaves the others. */
  lemma OverwriteRow(buffer: seq<real>, size: nat, rows: nat, b: nat, values: seq<real>, i: nat)
    requires |buffer| == Offset(rows, size) && b < rows && i < rows && |values| == size
    ensures Offset(b, size) + size <= |buffer| && Offset(i, size) + size <= |buffer|
    ensures RowOf(Overwrite(buffer, Offset(b, size), values), size, i) == if i == b then values
        else RowOf(buffer, size, i)
  {
    RowFits(b, size, rows);
    RowFits(i, size, rows);
    if i < b {
      RowFits(i, size, b);
    } else if b < i {
      RowFits(b, size, i);
    }
  }

  /** The sum of the products of `n` neighbours in two buffers. */
  function FlatSum(a: seq<real>, at: nat, b: seq<real>, bt: nat, n: nat): real
    requires at + n <= |a| && bt + n <= |b|
  {
    if n == 0 then 0.0 else FlatSum(a, at, b, bt, n - 1) + a[at + (n - 1)] * b[bt + (n - 1)]
  }

  lemma {:induction false} DotIsFlat(a: seq<real>, at: nat, b: seq<real>, bt: nat, size: nat, n: nat)
    requires at + size <= |a| && bt + size <= |b| && n <= size
    ensures SumTo(Times(a[at..at + size], b[bt..bt + size]), n) == FlatSum(a, at, b, bt, n)
  {
    if n > 0 {
      DotIsFlat(a, at, b, bt, size, n - 1);
      var left, right := a[at..at + size], b[bt..bt + size];
      assert left[n - 1] == a[at + (n - 1)] && right[n - 1] == b[bt + (n - 1)];
      assert Times(left, right)[n - 1] == left[n - 1] * right[n - 1];
    }
  }

  lemma DotOfSlices(a: seq<real>, at: nat, b: seq<real>, bt: nat, n: nat)
    requires at + n <= |a| && bt + n <= |b|
    ensures Dot(a[at..at + n], b[bt..bt + n]) == FlatSum(a, at, b, bt, n)
  {
    DotIsFlat(a, at, b, bt, n, n);
  }
}
