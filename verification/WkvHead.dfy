/** The kernels over whole heads: one dispatch per row, or the algebraic form for all rows at once. */
module WkvHead {
  import opened Wrappers
  import opened Lists
  import opened RealVectors
  import opened WkvRow
  import opened WkvLanes

  datatype Kernel = Scalar | Pulp(lanes: nat) {
    predicate Usable() {
      Pulp? ==> lanes > 0
    }
  }

  // ----- Dispatch of one row -----

  method OutputRow(c: Config, kernel: Kernel, row: seq<real>, h: Head, value: real) returns (output: real)
    requires h.Sized(|row|) && kernel.Usable()
    ensures output == OutRow(row, h, value, c.Applied())
  {
    if kernel.Pulp? {
      output := OutputRowLanes(row, h, value, c.Applied(), kernel.lanes);
    } else if c.Applied().skip {
      output := OutputRowSkipScalar(row, h.r, h.k, value, h.w, h, c.Applied());
    } else {
      output := OutputRowScalar(row, h, value, c.Applied());
    }
  }

  method StateOutputRow(c: Config, kernel: Kernel, row: seq<real>, nextState: array<real>, at: nat, h: Head,
                        value: real)
    returns (output: real)
    requires h.Sized(|row|) && kernel.Usable() && at + |row| <= nextState.Length
    modifies nextState
    ensures nextState[..] == Overwrite(old(nextState[..]), at, NextRow(row, h, value, c.Applied()))
    ensures output == OutRow(row, h, value, c.Applied())
  {
    if kernel.Pulp? {
      output := StateOutputRowLanes(row, nextState, at, h, value, c.Applied(), kernel.lanes);
    } else if c.Applied().skip {
      output := StateOutputRowSkipScalar(row, nextState, at, h.r, h.k, value, h.w, h, c.Applied());
    } else {
      output := StateOutputRowScalar(row, nextState, at, h, value, c.Applied());
    }
  }

  // ----- The algebraic head -----

  function AlgebraicHead(state: seq<real>, h: Head, v: seq<real>, o: Options): (r: seq<real>)
    requires h.Sized(|v|) && |state| == Offset(|v|, |v|)
    ensures |r| == |v|
  {
    seq(|v|, i requires 0 <= i < |v| => RowFits(i, |v|, |v|); AlgebraicRow(RowOf(state, |v|, i), h, v[i], o))
  }

  method ReadoutsScalar(h: Head, o: Options) returns (key: real, deformation: real)
    requires h.Sized(|h.r|)
    ensures key == Dot(h.k, h.r) && deformation == DeformationReadout(h, o)
  {
    key, deformation := 0.0, 0.0;
    for j := 0 to |h.r|
      invariant key == SumTo(Times(h.k, h.r), j)
      invariant deformation == if o.skip then 0.0 else SumTo(Times(DeformedKeys(h, o.reuse), h.r), j)
    {
      key := key + h.k[j] * h.r[j];
      if !o.skip {
        var deformed := if o.reuse then h.k[j] else h.a[j] * h.kd[j];
        deformation := deformation + deformed * h.r[j];
      }
    }
  }

  method BuildQuery(h: Head, deformation: real) returns (query: seq<real>)
    requires h.Sized(|h.r|)
    ensures query == QueryWith(h, deformation)
  {
    query := [];
    for j := 0 to |h.r|
      invariant |query| == j && forall i :: 0 <= i < j ==> query[i] == QueryWith(h, deformation)[i]
    {
      query := query + [h.w[j] * h.r[j] - deformation * h.kd[j]];
    }
  }

  method ReadoutsLanes(h: Head, o: Options, lanes: nat) returns (key: real, deformation: real)
    requires h.Sized(|h.r|) && lanes > 0
    ensures key == Dot(h.k, h.r) && deformation == DeformationReadout(h, o)
  {
    ghost var t, u := Times(h.k, h.r), Times(DeformedKeys(h, o.reuse), h.r);
    var at, keyAcc, deformationAcc := 0, Splat(lanes, 0.0), Splat(lanes, 0.0);
    NothingAccumulated(lanes);
    while at + lanes <= |h.r|
      invariant at <= |h.r| && |keyAcc| == |deformationAcc| == lanes
      invariant ReduceSum(keyAcc) == SumTo(t, at)
      invariant ReduceSum(deformationAcc) == if o.skip then 0.0 else SumTo(u, at)
    {
      keyAcc := Accumulate(Lane(h.k, at, lanes), Lane(h.r, at, lanes), keyAcc, t, at);
      if !o.skip {
        deformationAcc := AccumulateDeformation(h, o, at, deformationAcc);
      }
      at := at + lanes;
    }
    key, deformation := ReadoutsTail(h, o, at, ReduceSum(keyAcc), ReduceSum(deformationAcc));
  }

  method AccumulateDeformation(h: Head, o: Options, at: nat, acc: seq<real>) returns (next: seq<real>)
    requires h.Sized(|h.r|) && at + |acc| <= |h.r|
    requires ReduceSum(acc) == SumTo(Times(DeformedKeys(h, o.reuse), h.r), at)
    ensures |next| == |acc| && ReduceSum(next) == SumTo(Times(DeformedKeys(h, o.reuse), h.r), at + |acc|)
  {
    next := Accumulate(KeyLanes(h, o.reuse, at, |acc|), Lane(h.r, at, |acc|), acc,
                       Times(DeformedKeys(h, o.reuse), h.r), at);
  }

  method ReadoutsTail(h: Head, o: Options, at: nat, keySum: real, deformationSum: real)
    returns (key: real, deformation: real)
    requires h.Sized(|h.r|) && at <= |h.r| && keySum == SumTo(Times(h.k, h.r), at)
    requires deformationSum == if o.skip then 0.0 else SumTo(Times(DeformedKeys(h, o.reuse), h.r), at)
    ensures key == Dot(h.k, h.r) && deformation == DeformationReadout(h, o)
  {
    ghost var t, u := Times(h.k, h.r), Times(DeformedKeys(h, o.reuse), h.r);
    key, deformation := keySum, deformationSum;
    for j := at to |h.r|
      invariant key == SumTo(t, j) && deformation == if o.skip then 0.0 else SumTo(u, j)
    {
      key := h.k[j] * h.r[j] + key;
      if !o.skip {
        var deformed := if o.reuse then h.k[j] else h.a[j] * h.kd[j];
        deformation := deformed * h.r[j] + deformation;
      }
    }
  }

  method BuildQueryLanes(h: Head, deformation: real, lanes: nat) returns (query: seq<real>)
    requires h.Sized(|h.r|) && lanes > 0
    ensures query == QueryWith(h, deformation)
  {
    var at := 0;
    query := [];
    while at + lanes <= |h.r|
      invariant |query| == at <= |h.r| && forall i :: 0 <= i < at ==> query[i] == QueryWith(h, deformation)[i]
    {
      var weighted := Mul(Lane(h.w, at, lanes), Lane(h.r, at, lanes));
      query := query + Minus(weighted, Mul(Splat(lanes, deformation), Lane(h.kd, at, lanes)));
      at := at + lanes;
    }
    for j := at to |h.r|
      invariant |query| == j && forall i :: 0 <= i < j ==> query[i] == QueryWith(h, deformation)[i]
    {
      query := query + [h.w[j] * h.r[j] - deformation * h.kd[j]];
    }
  }

  method AlgebraicOutputHead(kernel: Kernel, state: seq<real>, output: array<real>, at: nat, h: Head, v: seq<real>,
                             o: Options)
    requires h.Sized(|v|) && |state| == Offset(|v|, |v|) && kernel.Usable() && at + |v| <= output.Length
    modifies output
    ensures output[..] == Overwrite(old(output[..]), at, AlgebraicHead(state, h, v, o))
  {
    var key, deformation, query;
    if kernel.Pulp? {
      key, deformation := ReadoutsLanes(h, o, kernel.lanes);
      query := BuildQueryLanes(h, deformation, kernel.lanes);
    } else {
      key, deformation := ReadoutsScalar(h, o);
      query := BuildQuery(h, deformation);
    }
    ghost var before, target := output[..], AlgebraicHead(state, h, v, o);
    for i := 0 to |v|
      invariant output[..] == Overwrite(before, at, target[..i])
    {
      RowFits(i, |v|, |v|);
      var row := RowOf(state, |v|, i);
      var dot;
      if kernel.Pulp? {
        dot := LinearDot(row, query, kernel.lanes);
      } else {
        dot := DotScalar(row, query);
      }
      assert target[i] == dot + v[i] * key;
      WriteNext(output, at, before, target, i, dot + v[i] * key);
    }
    assert target[..|v|] == target;
  }

  // ----- Dispatch of one head -----

  lemma AlgebraicHeadAgrees(c: Config, state: seq<real>, h: Head, v: seq<real>)
    requires h.Sized(|v|) && |state| == Offset(|v|, |v|) && c.Algebraic()
    ensures AlgebraicHead(state, h, v, c.Applied()) == HeadOutputs(state, h, v, c.Applied())
  {
    forall i | 0 <= i < |v|
      ensures AlgebraicHead(state, h, v, c.Applied())[i] == HeadOutputs(state, h, v, c.Applied())[i]
    {
      RowFits(i, |v|, |v|);
      AlgebraicPathAgrees(c, RowOf(state, |v|, i), h, v[i]);
    }
  }

  /** Whichever form and kernel are chosen, a head's outputs are those of the row recurrence. */
  method OutputHead(c: Config, kernel: Kernel, state: seq<real>, output: array<real>, at: nat, h: Head, v: seq<real>)
    requires h.Sized(|v|) && |state| == Offset(|v|, |v|) && kernel.Usable() && at + |v| <= output.Length
    modifies output
    ensures output[..] == Overwrite(old(output[..]), at, HeadOutputs(state, h, v, c.Applied()))
  {
    if c.Algebraic() {
      AlgebraicHeadAgrees(c, state, h, v);
      AlgebraicOutputHead(kernel, state, output, at, h, v, c.Applied());
      return;
    }
    ghost var before, target := output[..], HeadOutputs(state, h, v, c.Applied());
    for i := 0 to |v|
      invariant output[..] == Overwrite(before, at, target[..i])
    {
      RowFits(i, |v|, |v|);
      var value := OutputRow(c, kernel, RowOf(state, |v|, i), h, v[i]);
      WriteNext(output, at, before, target, i, value);
    }
    assert target[..|v|] == target;
  }
}
