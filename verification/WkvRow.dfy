/** One row of the recurrence, its algebraic rearrangement, and the scalar kernels that compute them. */
module WkvRow {
  import opened Wrappers
  import opened Lists
  import opened RealVectors

  /** The vectors of one head. */
  datatype Head = Head(r: seq<real>, k: seq<real>, w: seq<real>, a: seq<real>, kd: seq<real>) {
    predicate Sized(n: nat) {
      |r| == |k| == |w| == |a| == |kd| == n
    }
  }

  datatype Options = Options(skip: bool, threshold: Option<real>, reuse: bool)

  /** The process-wide switches of the recurrence. */
  datatype Config = Config(active: bool, skipConfigured: bool, thresholdConfigured: Option<real>,
                           algebraicConfigured: bool, reuse: bool)
  {
    function Threshold(): Option<real> {
      if active then thresholdConfigured else None
    }

    function Applied(): Options {
      Options(active && skipConfigured, Threshold(), reuse)
    }

    predicate Algebraic() {
      active && Threshold().None? && algebraicConfigured
    }
  }

  function Abs(x: real): real {
    if x < 0.0 then -x else x
  }

  // ----- The recurrence of a row -----

  function DeformedKey(h: Head, reuse: bool, j: nat): real
    requires j < |h.k| && j < |h.a| && j < |h.kd|
  {
    if reuse then h.k[j] else h.a[j] * h.kd[j]
  }

  function DeformedKeys(h: Head, reuse: bool): (r: seq<real>)
    requires h.Sized(|h.r|)
    ensures |r| == |h.r|
  {
    seq(|h.r|, j requires 0 <= j < |h.r| => DeformedKey(h, reuse, j))
  }

  predicate Skips(o: Options, left: real) {
    o.skip || (o.threshold.Some? && Abs(left) <= o.threshold.value)
  }

  function NextCell(row: seq<real>, h: Head, value: real, o: Options, left: real, j: nat): real
    requires h.Sized(|row|) && j < |row|
  {
    row[j] * h.w[j] - (if Skips(o, left) then 0.0 else left * DeformedKey(h, o.reuse, j)) + value * h.k[j]
  }

  /** Row i of S diag(w) - (S kd) dk^T + v k^T, the middle term dropped when the deformation is skipped. */
  function NextRow(row: seq<real>, h: Head, value: real, o: Options): (r: seq<real>)
    requires h.Sized(|row|)
    ensures |r| == |row|
  {
    seq(|row|, j requires 0 <= j < |row| => NextCell(row, h, value, o, Dot(row, h.kd), j))
  }

  function OutRow(row: seq<real>, h: Head, value: real, o: Options): real
    requires h.Sized(|row|)
  {
    Dot(NextRow(row, h, value, o), h.r)
  }

  // ----- The algebraic form -----

  function DeformationReadout(h: Head, o: Options): real
    requires h.Sized(|h.r|)
  {
    if o.skip then 0.0 else Dot(DeformedKeys(h, o.reuse), h.r)
  }

  function QueryWith(h: Head, deformation: real): (r: seq<real>)
    requires h.Sized(|h.r|)
    ensures |r| == |h.r|
  {
    seq(|h.r|, j requires 0 <= j < |h.r| => h.w[j] * h.r[j] - deformation * h.kd[j])
  }

  function Query(h: Head, o: Options): (r: seq<real>)
    requires h.Sized(|h.r|)
    ensures |r| == |h.r|
  {
    QueryWith(h, DeformationReadout(h, o))
  }

  function AlgebraicRow(row: seq<real>, h: Head, value: real, o: Options): real
    requires h.Sized(|row|)
  {
    Dot(row, Query(h, o)) + value * Dot(h.k, h.r)
  }

  /** The row's output as three independent sums. */
  lemma OutRowExpanded(row: seq<real>, h: Head, value: real, o: Options)
    requires h.Sized(|row|)
    ensures var left := Dot(row, h.kd);
      OutRow(row, h, value, o)
      == Dot(row, Times(h.w, h.r)) - (if Skips(o, left) then 0.0 else left) * Dot(DeformedKeys(h, o.reuse), h.r)
       + value * Dot(h.k, h.r)
  {
    var left := Dot(row, h.kd);
    var factor := if Skips(o, left) then 0.0 else left;
    forall j | 0 <= j < |row|
      ensures NextRow(row, h, value, o)[j] == row[j] * h.w[j] - factor * DeformedKeys(h, o.reuse)[j] + value * h.k[j]
    {
      CellFactors(row, h, value, o, left, j);
    }
    RankOneReadout(NextRow(row, h, value, o), row, h, DeformedKeys(h, o.reuse), factor, value);
  }

  /** Reading out a decayed row with two rank-one terms, term by term. */
  lemma RankOneReadout(next: seq<real>, row: seq<real>, h: Head, keys: seq<real>, factor: real, value: real)
    requires h.Sized(|row|) && |next| == |keys| == |row|
    requires forall j :: 0 <= j < |row| ==> next[j] == row[j] * h.w[j] - factor * keys[j] + value * h.k[j]
    ensures Dot(next, h.r) == Dot(row, Times(h.w, h.r)) - factor * Dot(keys, h.r) + value * Dot(h.k, h.r)
  {
    var t, a, b, c := Times(next, h.r), Times(row, Times(h.w, h.r)), Times(keys, h.r), Times(h.k, h.r);
    forall j | 0 <= j < |row| ensures t[j] == a[j] - factor * b[j] + value * c[j] {
      Distribute(row[j], h.w[j], h.r[j], factor, keys[j], value, h.k[j]);
    }
    SumCombines(t, a, b, c, factor, value, |row|);
  }

  lemma CellFactors(row: seq<real>, h: Head, value: real, o: Options, left: real, j: nat)
    requires h.Sized(|row|) && j < |row|
    ensures NextCell(row, h, value, o, left, j)
         == row[j] * h.w[j] - (if Skips(o, left) then 0.0 else left) * DeformedKey(h, o.reuse, j) + value * h.k[j]
  {
  }

  lemma Distribute(s: real, w: real, r: real, x: real, key: real, value: real, k: real)
    ensures (s * w - x * key + value * k) * r == s * (w * r) - x * (key * r) + value * (k * r)
  {
  }

  lemma QueryTerm(s: real, wr: real, d: real, kd: real)
    ensures s * (wr - d * kd) == s * wr - d * (s * kd)
  {
  }

  lemma AlgebraicRowExpanded(row: seq<real>, h: Head, value: real, o: Options)
    requires h.Sized(|row|)
    ensures AlgebraicRow(row, h, value, o)
         == Dot(row, Times(h.w, h.r)) - Dot(row, h.kd) * DeformationReadout(h, o) + value * Dot(h.k, h.r)
  {
    var d, query := DeformationReadout(h, o), Query(h, o);
    QueryReadout(row, query, Times(h.w, h.r), h.kd, d);
  }

  /** A query less a multiple of the keys reads out the difference. */
  lemma QueryReadout(row: seq<real>, query: seq<real>, wr: seq<real>, kd: seq<real>, d: real)
    requires |row| == |query| == |wr| == |kd| && forall j :: 0 <= j < |row| ==> query[j] == wr[j] - d * kd[j]
    ensures Dot(row, query) == Dot(row, wr) - d * Dot(row, kd)
  {
    forall j | 0 <= j < |row| ensures Times(row, query)[j] == Times(row, wr)[j] - d * Times(row, kd)[j] {
      QueryTerm(row[j], wr[j], d, kd[j]);
    }
    SumDiffers(Times(row, query), Times(row, wr), Times(row, kd), d, |row|);
  }

  /** The algebraic form is the row recurrence exactly when a threshold does not skip a term that matters. */
  lemma AlgebraicAgreesIff(row: seq<real>, h: Head, value: real, o: Options)
    requires h.Sized(|row|)
    ensures AlgebraicRow(row, h, value, o) == OutRow(row, h, value, o)
      <==> (o.skip || !Skips(o, Dot(row, h.kd)) || Dot(row, h.kd) * Dot(DeformedKeys(h, o.reuse), h.r) == 0.0)
  {
    OutRowExpanded(row, h, value, o);
    AlgebraicRowExpanded(row, h, value, o);
  }

  /** Whenever the program takes the algebraic path, on every flag combination and size, it computes the recurrence. */
  lemma AlgebraicPathAgrees(c: Config, row: seq<real>, h: Head, value: real)
    requires h.Sized(|row|) && c.Algebraic()
    ensures AlgebraicRow(row, h, value, c.Applied()) == OutRow(row, h, value, c.Applied())
  {
    AlgebraicAgreesIff(row, h, value, c.Applied());
  }

  /** A threshold that skips a term that matters separates the two. */
  lemma ThresholdSeparates()
    ensures var h := Head([1.0], [0.0], [0.0], [1.0], [1.0]);
      var o := Options(false, Some(1.0), false);
      AlgebraicRow([1.0], h, 0.0, o) != OutRow([1.0], h, 0.0, o)
  {
    var h := Head([1.0], [0.0], [0.0], [1.0], [1.0]);
    var o := Options(false, Some(1.0), false);
    assert Times([1.0], h.kd) == [1.0];
    assert SumTo([1.0], 1) == SumTo([1.0], 0) + 1.0;
    assert Dot([1.0], h.kd) == 1.0;
    assert DeformedKeys(h, false) == [1.0] && Times([1.0], h.r) == [1.0];
    assert Dot(DeformedKeys(h, false), h.r) == 1.0;
    AlgebraicAgreesIff([1.0], h, 0.0, o);
  }

  /** Reusing the key as the deformed key changes nothing when the key was prepared as a * kd. */
  lemma ReuseIsHarmless(row: seq<real>, h: Head, value: real, o: Options)
    requires h.Sized(|row|) && forall j :: 0 <= j < |row| ==> h.k[j] == h.a[j] * h.kd[j]
    ensures NextRow(row, h, value, o.(reuse := true)) == NextRow(row, h, value, o.(reuse := false))
    ensures OutRow(row, h, value, o.(reuse := true)) == OutRow(row, h, value, o.(reuse := false))
  {
    var reused, computed := o.(reuse := true), o.(reuse := false);
    forall j | 0 <= j < |row|
      ensures NextRow(row, h, value, reused)[j] == NextRow(row, h, value, computed)[j]
    {
      assert DeformedKey(h, true, j) == DeformedKey(h, false, j);
    }
    assert NextRow(row, h, value, reused) == NextRow(row, h, value, computed);
  }

  // ----- Scalar kernels -----

  method OutputRowSkipScalar(row: seq<real>, r: seq<real>, k: seq<real>, value: real, w: seq<real>,
                             ghost h: Head, ghost o: Options)
    returns (output: real)
    requires h.Sized(|row|) && h.r == r && h.k == k && h.w == w && o.skip
    ensures output == OutRow(row, h, value, o)
  {
    ghost var t := Times(NextRow(row, h, value, o), r);
    output := 0.0;
    for j := 0 to |row|
      invariant output == SumTo(t, j)
    {
      var next := row[j] * w[j] + value * k[j];
      output := output + next * r[j];
    }
  }

  lemma SkippedCell(row: seq<real>, h: Head, value: real, o: Options, j: nat)
    requires h.Sized(|row|) && j < |row| && o.skip
    ensures NextRow(row, h, value, o)[j] == row[j] * h.w[j] + value * h.k[j]
  {
  }

  /** The body of the scalar loops. */
  method ScalarCell(row: seq<real>, h: Head, value: real, o: Options, left: real, j: nat) returns (next: real)
    requires h.Sized(|row|) && j < |row| && !o.skip
    ensures next == NextCell(row, h, value, o, left, j)
  {
    if o.threshold.Some? && Abs(left) <= o.threshold.value {
      next := row[j] * h.w[j] + value * h.k[j];
    } else {
      var key := if o.reuse then h.k[j] else h.a[j] * h.kd[j];
      next := row[j] * h.w[j] - left * key + value * h.k[j];
    }
  }

  method OutputRowScalar(row: seq<real>, h: Head, value: real, o: Options) returns (output: real)
    requires h.Sized(|row|) && !o.skip
    ensures output == OutRow(row, h, value, o)
  {
    var left := DotScalar(row, h.kd);
    ghost var t := Times(NextRow(row, h, value, o), h.r);
    output := 0.0;
    for j := 0 to |row|
      invariant output == SumTo(t, j)
    {
      var next := ScalarCell(row, h, value, o, left, j);
      output := output + next * h.r[j];
    }
  }

  method StateOutputRowSkipScalar(row: seq<real>, nextState: array<real>, at: nat, r: seq<real>, k: seq<real>,
                                  value: real, w: seq<real>, ghost h: Head, ghost o: Options)
    returns (output: real)
    requires h.Sized(|row|) && h.r == r && h.k == k && h.w == w && o.skip && at + |row| <= nextState.Length
    modifies nextState
    ensures nextState[..] == Overwrite(old(nextState[..]), at, NextRow(row, h, value, o))
    ensures output == OutRow(row, h, value, o)
  {
    ghost var before, next := nextState[..], NextRow(row, h, value, o);
    output := 0.0;
    for j := 0 to |row|
      invariant nextState[..] == Overwrite(before, at, next[..j])
      invariant output == SumTo(Times(next, r), j)
    {
      var cell := row[j] * w[j] + value * k[j];
      SkippedCell(row, h, value, o, j);
      WriteNext(nextState, at, before, next, j, cell);
      output := output + cell * r[j];
    }
    assert next[..|row|] == next;
  }

  method StateOutputRowScalar(row: seq<real>, nextState: array<real>, at: nat, h: Head, value: real, o: Options)
    returns (output: real)
    requires h.Sized(|row|) && !o.skip && at + |row| <= nextState.Length
    modifies nextState
    ensures nextState[..] == Overwrite(old(nextState[..]), at, NextRow(row, h, value, o))
    ensures output == OutRow(row, h, value, o)
  {
    var left := DotScalar(row, h.kd);
    ghost var before := nextState[..];
    ghost var next := NextRow(row, h, value, o);
    output := 0.0;
    for j := 0 to |row|
      invariant nextState[..] == Overwrite(before, at, next[..j])
      invariant output == SumTo(Times(next, h.r), j)
    {
      var cell := ScalarCell(row, h, value, o, left, j);
      WriteNext(nextState, at, before, next, j, cell);
      output := output + cell * h.r[j];
    }
    assert next[..|row|] == next;
  }

  /** The outputs of a head whose state rows lie one after the other. */
  function HeadOutputs(state: seq<real>, h: Head, v: seq<real>, o: Options): (r: seq<real>)
    requires h.Sized(|v|) && |state| == Offset(|v|, |v|)
    ensures |r| == |v|
  {
    seq(|v|, i requires 0 <= i < |v| => RowFits(i, |v|, |v|); OutRow(RowOf(state, |v|, i), h, v[i], o))
  }
}
