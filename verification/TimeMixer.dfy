/** The entry points of the recurrence: with raw keys and values prepared first, or with prepared tensors. */
module TimeMixer {
  import opened Wrappers
  import opened Lists
  import opened RealVectors
  import opened WkvRow
  import opened WkvHead
  import opened WkvFlat
  import opened WkvTimestep
  import opened WkvBatch
  import opened WkvOutputOnly

  datatype ShapeError = WrongVectors | WrongScales | WrongState | StateGivenForZeroState

  // ----- Prepared tensors -----

  /** A tensor's values in row-major order, as many as its dimensions say. */
  datatype Tensor = Tensor(dims: seq<nat>, values: seq<real>) {
    predicate Valid() {
      |values| == Volume(dims)
    }
  }

  function Volume(dims: seq<nat>): nat {
    if dims == [] then 1 else Offset(Volume(dims[..|dims| - 1]), dims[|dims| - 1])
  }

  lemma VolumeThree(b: nat, h: nat, k: nat)
    ensures Volume([b, h, k]) == Offset(Offset(b, h), k)
  {
    var unit: nat, none: seq<nat>, one, two, three := 1, [], [b], [b, h], [b, h, k];
    assert three[..2] == two && two[..1] == one && one[..0] == none;
    assert Volume(none) == unit;
    OffsetIsProduct(unit, b);
    assert Volume(one) == Offset(unit, b) == b;
    assert Volume(two) == Offset(b, h);
  }

  lemma VolumeFour(b: nat, h: nat, k: nat)
    ensures Volume([b, h, k, k]) == Offset(Offset(b, h), Offset(k, k))
  {
    var three, four := [b, h, k], [b, h, k, k];
    assert four[..3] == three;
    VolumeThree(b, h, k);
    OffsetNests(Offset(b, h), k, k);
  }

  /** The vectors of a step and its state. */
  datatype Tensors = Tensors(r: Tensor, k: Tensor, v: Tensor, w: Tensor, a: Tensor, kd: Tensor, state: Tensor) {
    predicate Valid() {
      r.Valid() && k.Valid() && v.Valid() && w.Valid() && a.Valid() && kd.Valid() && state.Valid()
    }

    /** Three dimensions, the same for all vectors. */
    predicate SameShape() {
      |r.dims| == 3 && k.dims == r.dims && v.dims == r.dims && w.dims == r.dims && a.dims == r.dims && kd.dims == r.dims
    }

    predicate StateFits()
      requires SameShape()
    {
      state.dims == [r.dims[0], r.dims[1], r.dims[2], r.dims[2]]
    }

    function Vectors(): Inputs
      requires SameShape()
    {
      Inputs(r.values, k.values, v.values, w.values, a.values, kd.values, r.dims[0], r.dims[1], r.dims[2])
    }

    /** Several batches are split into chunks of heads * size values, which must not be empty. */
    predicate Chunkable() {
      SameShape() && r.dims[0] > 1 ==> r.dims[1] > 0 && r.dims[2] > 0
    }

    lemma ShapesAgree()
      requires Valid() && SameShape()
      ensures Vectors().Shaped()
      ensures StateFits() ==> |state.values| == Offset(Vectors().Cells(), Vectors().CellArea())
    {
      var d := r.dims;
      assert d == [d[0], d[1], d[2]];
      VolumeThree(d[0], d[1], d[2]);
      VolumeFour(d[0], d[1], d[2]);
    }
  }

  /** The next state is that of the recurrence on the tensors of those names. */
  ghost predicate TensorsStepped(c: Config, x: Tensors, next: seq<real>)
    requires x.SameShape()
  {
    var d := x.r.dims;
    var inputs := Inputs(x.r.values, x.k.values, x.v.values, x.w.values, x.a.values, x.kd.values, d[0], d[1], d[2]);
    inputs.Shaped() && EntriesStepped(inputs, x.state.values, c, next)
  }

  /** The output reads such a next state out by the tensor of that name. */
  ghost predicate TensorsRead(x: Tensors, next: seq<real>, output: seq<real>)
    requires x.SameShape()
  {
    var d := x.r.dims;
    var inputs := Inputs(x.r.values, x.k.values, x.v.values, x.w.values, x.a.values, x.kd.values, d[0], d[1], d[2]);
    inputs.Shaped() && OutputsRead(inputs, next, output)
  }

  method SingleTimestep(c: Config, kernel: Kernel, x: Tensors)
    returns (r: Result<(array<real>, array<real>), ShapeError>)
    requires kernel.Usable() && x.Valid() && x.Chunkable()
    ensures !x.SameShape() ==> r == Err(WrongVectors)
    ensures x.SameShape() && !x.StateFits() ==> r == Err(WrongState)
    ensures x.SameShape() && x.StateFits() ==>
      && x.Vectors().Shaped() && |x.state.values| == Offset(x.Vectors().Cells(), x.Vectors().CellArea())
      && r.Ok? && r.value.0[..] == Outputs(x.Vectors(), x.state.values, c.Applied())
      && r.value.1[..] == NextState(x.Vectors(), x.state.values, c.Applied())
      && TensorsStepped(c, x, r.value.1[..]) && TensorsRead(x, r.value.1[..], r.value.0[..])
  {
    if !x.SameShape() {
      return Err(WrongVectors);
    }
    if !x.StateFits() {
      return Err(WrongState);
    }
    x.ShapesAgree();
    var inputs := x.Vectors();
    var output := new real[Offset(inputs.Cells(), inputs.size)](_ => 0.0);
    var nextState := new real[Offset(inputs.Cells(), inputs.CellArea())](_ => 0.0);
    StateStep(c, kernel, inputs, Some(x.state.values), output, nextState);
    return Ok((output, nextState));
  }

  method SingleTimestepOutput(c: Config, kernel: Kernel, x: Tensors) returns (r: Result<array<real>, ShapeError>)
    requires kernel.Usable() && x.Valid() && x.Chunkable()
    ensures !x.SameShape() ==> r == Err(WrongVectors)
    ensures x.SameShape() && !x.StateFits() ==> r == Err(WrongState)
    ensures x.SameShape() && x.StateFits() ==>
      && x.Vectors().Shaped() && |x.state.values| == Offset(x.Vectors().Cells(), x.Vectors().CellArea())
      && r.Ok? && r.value[..] == Outputs(x.Vectors(), x.state.values, c.Applied())
      && TensorsRead(x, NextState(x.Vectors(), x.state.values, c.Applied()), r.value[..])
  {
    if !x.SameShape() {
      return Err(WrongVectors);
    }
    if !x.StateFits() {
      return Err(WrongState);
    }
    x.ShapesAgree();
    var inputs := x.Vectors();
    var output := new real[Offset(inputs.Cells(), inputs.size)](_ => 0.0);
    OutputStep(c, kernel, true, inputs, Some(x.state.values), output);
    StepIsFlat(inputs, x.state.values, c);
    return Ok(output);
  }

  // ----- Preparing keys and values -----

  const L2_NORM_MIN: real := 0.000000000001

  function Norm(sqrt: real -> real, values: seq<real>): (r: real)
    ensures r >= L2_NORM_MIN
  {
    var root := sqrt(Dot(values, values));
    if root < L2_NORM_MIN then L2_NORM_MIN else root
  }

  function Normalized(sqrt: real -> real, values: seq<real>, scale: real): (r: seq<real>)
    ensures |r| == |values|
  {
    seq(|values|, j requires 0 <= j < |values| => values[j] / Norm(sqrt, values) * scale)
  }

  /** Raw inputs: keys and values before normalisation, one scale for each (batch, head) cell. */
  datatype Raw = Raw(r: seq<real>, k: seq<real>, v: seq<real>, w: seq<real>, a: seq<real>, kScale: seq<real>,
                     vScale: seq<real>, batch: nat, heads: nat, size: nat)
  {
    function Cells(): nat {
      Offset(batch, heads)
    }

    predicate VectorsShaped() {
      |r| == |k| == |v| == |w| == |a| == Offset(Cells(), size)
    }

    predicate ScalesShaped() {
      |kScale| == |vScale| == Cells()
    }
  }

  /** The first cells of a buffer, each normalised and scaled. */
  function NormalizedCells(sqrt: real -> real, values: seq<real>, scales: seq<real>, size: nat,
                           cells: nat): (r: seq<real>)
    requires |values| == Offset(|scales|, size) && cells <= |scales|
    ensures |r| == Offset(cells, size)
  {
    if cells == 0 then []
    else
      RowFits(cells - 1, size, |scales|);
      NormalizedCells(sqrt, values, scales, size, cells - 1)
          + Normalized(sqrt, RowOf(values, size, cells - 1), scales[cells - 1])
  }

  function Prepared(sqrt: real -> real, raw: Raw): (x: Inputs)
    requires raw.VectorsShaped() && raw.ScalesShaped()
    ensures x.Shaped() && x.batch == raw.batch && x.heads == raw.heads && x.size == raw.size
  {
    var kd := NormalizedCells(sqrt, raw.k, raw.kScale, raw.size, raw.Cells());
    var v := NormalizedCells(sqrt, raw.v, raw.vScale, raw.size, raw.Cells());
    Inputs(raw.r, Times(kd, raw.a), v, raw.w, raw.a, kd, raw.batch, raw.heads, raw.size)
  }

  method NormalizeHead(sqrt: real -> real, values: seq<real>, scale: real, output: array<real>, at: nat)
    requires at + |values| <= output.Length
    modifies output
    ensures output[..] == Overwrite(old(output[..]), at, Normalized(sqrt, values, scale))
  {
    var squared := DotScalar(values, values);
    var root := sqrt(squared);
    var norm := if root < L2_NORM_MIN then L2_NORM_MIN else root;
    assert norm == Norm(sqrt, values);
    ghost var before, target := output[..], Normalized(sqrt, values, scale);
    for j := 0 to |values|
      invariant output[..] == Overwrite(before, at, target[..j])
    {
      assert target[j] == values[j] / norm * scale;
      WriteNext(output, at, before, target, j, values[j] / norm * scale);
    }
    assert target[..|values|] == target;
  }

  method NormalizeCells(sqrt: real -> real, values: seq<real>, scales: seq<real>, size: nat, output: array<real>)
    requires |values| == output.Length == Offset(|scales|, size)
    modifies output
    ensures output[..] == NormalizedCells(sqrt, values, scales, size, |scales|)
  {
    ghost var before := output[..];
    for cell := 0 to |scales|
      invariant Offset(cell, size) <= output.Length
      invariant output[..] == Overwrite(before, 0, NormalizedCells(sqrt, values, scales, size, cell))
    {
      RowFits(cell, size, |scales|);
      NormalizeCell(sqrt, values, scales, size, cell, output, before);
    }
  }

  method NormalizeCell(sqrt: real -> real, values: seq<real>, scales: seq<real>, size: nat, cell: nat,
                       output: array<real>, ghost before: seq<real>)
    requires |values| == output.Length == |before| == Offset(|scales|, size) && cell < |scales|
    requires Offset(cell, size) + size <= output.Length
    requires output[..] == Overwrite(before, 0, NormalizedCells(sqrt, values, scales, size, cell))
    modifies output
    ensures output[..] == Overwrite(before, 0, NormalizedCells(sqrt, values, scales, size, cell + 1))
  {
    var at := cell * size;
    assert at == Offset(cell, size) by {
      OffsetIsProduct(cell, size);
    }
    var head := values[at..at + size];
    assert head == RowOf(values, size, cell);
    NormalizeHead(sqrt, head, scales[cell], output, at);
    AppendWrite(before, 0, NormalizedCells(sqrt, values, scales, size, cell), Normalized(sqrt, head, scales[cell]));
  }

  method Multiply(xs: seq<real>, ys: seq<real>, output: array<real>)
    requires |xs| == |ys| == output.Length
    modifies output
    ensures output[..] == Times(xs, ys)
  {
    for j := 0 to |xs|
      invariant forall i :: 0 <= i < j ==> output[i] == xs[i] * ys[i]
    {
      output[j] := xs[j] * ys[j];
    }
    assert forall i :: 0 <= i < |xs| ==> output[..][i] == Times(xs, ys)[i];
  }

  method Prepare(sqrt: real -> real, raw: Raw) returns (x: Inputs)
    requires raw.VectorsShaped() && raw.ScalesShaped()
    ensures x == Prepared(sqrt, raw)
  {
    var kd, k, v := new real[|raw.k|], new real[|raw.k|], new real[|raw.k|];
    NormalizeCells(sqrt, raw.k, raw.kScale, raw.size, kd);
    NormalizeCells(sqrt, raw.v, raw.vScale, raw.size, v);
    Multiply(kd[..], raw.a, k);
    x := Inputs(raw.r, k[..], v[..], raw.w, raw.a, kd[..], raw.batch, raw.heads, raw.size);
  }

  function AtLeastMin(root: real): real {
    if root >= 0.000000000001 then root else 0.000000000001
  }

  ghost predicate ScaledBy(source: seq<real>, at: nat, size: nat, norm: real, scale: real, target: seq<real>)
    requires norm != 0.0
  {
    at + size <= |source| == |target| && forall p :: at <= p < at + size ==> target[p] == source[p] / norm * scale
  }

  /** A stretch of a buffer is its source divided by the source's norm, or by the least norm, and scaled. */
  ghost predicate NormalizedFrom(sqrt: real -> real, source: seq<real>, at: nat, size: nat, scale: real,
                                 target: seq<real>)
  {
    at + size <= |source|
    && ScaledBy(source, at, size, AtLeastMin(sqrt(FlatSum(source, at, source, at, size))), scale, target)
  }

  lemma {:induction false} NormalizedCellsAt(sqrt: real -> real, values: seq<real>, scales: seq<real>, size: nat,
                                             cells: nat, cell: nat)
    requires |values| == Offset(|scales|, size) && cell < cells <= |scales|
    ensures Offset(cell, size) + size <= |NormalizedCells(sqrt, values, scales, size, cells)|
    ensures Offset(cell, size) + size <= |values|
    ensures RowOf(NormalizedCells(sqrt, values, scales, size, cells), size, cell)
         == Normalized(sqrt, RowOf(values, size, cell), scales[cell])
  {
    RowFits(cell, size, |scales|);
    RowFits(cells - 1, size, |scales|);
    RowOfSnoc(NormalizedCells(sqrt, values, scales, size, cells - 1),
              Normalized(sqrt, RowOf(values, size, cells - 1), scales[cells - 1]), size, cells - 1, cell);
    if cell < cells - 1 {
      NormalizedCellsAt(sqrt, values, scales, size, cells - 1, cell);
    }
  }

  lemma NormOfSlice(sqrt: real -> real, values: seq<real>, at: nat, size: nat)
    requires at + size <= |values|
    ensures Norm(sqrt, values[at..at + size]) == AtLeastMin(sqrt(FlatSum(values, at, values, at, size)))
  {
    DotOfSlices(values, at, values, at, size);
  }

  lemma SliceNormalized(sqrt: real -> real, values: seq<real>, at: nat, size: nat, scale: real, target: seq<real>,
                        norm: real)
    requires at + size <= |values| == |target| && norm == Norm(sqrt, values[at..at + size])
    requires target[at..at + size] == Normalized(sqrt, values[at..at + size], scale)
    ensures ScaledBy(values, at, size, norm, scale, target)
  {
    var source := values[at..at + size];
    forall p | at <= p < at + size ensures target[p] == values[p] / norm * scale {
      assert target[p] == target[at..at + size][p - at] && values[p] == source[p - at];
      assert Normalized(sqrt, source, scale)[p - at] == source[p - at] / norm * scale;
    }
  }

  lemma CellNormalized(sqrt: real -> real, values: seq<real>, scales: seq<real>, size: nat, cell: nat, at: nat)
    requires |values| == Offset(|scales|, size) && cell < |scales| && at == Offset(cell, size)
    ensures NormalizedFrom(sqrt, values, at, size, scales[cell],
                           NormalizedCells(sqrt, values, scales, size, |scales|))
  {
    var target := NormalizedCells(sqrt, values, scales, size, |scales|);
    NormalizedCellsAt(sqrt, values, scales, size, |scales|, cell);
    NormOfSlice(sqrt, values, at, size);
    SliceNormalized(sqrt, values, at, size, scales[cell], target, Norm(sqrt, values[at..at + size]));
  }

  /** A cell of a buffer normalised with its own scale. */
  ghost predicate NormalizedAt(sqrt: real -> real, source: seq<real>, scales: seq<real>, size: nat, target: seq<real>,
                               cell: nat)
    requires cell < |scales|
  {
    NormalizedFrom(sqrt, source, cell * size, size, scales[cell], target)
  }

  ghost predicate CellsNormalized(sqrt: real -> real, source: seq<real>, scales: seq<real>, size: nat,
                                  target: seq<real>)
  {
    forall cell: nat :: cell < |scales| ==> NormalizedAt(sqrt, source, scales, size, target, cell)
  }

  lemma CellNormalizedAt(sqrt: real -> real, values: seq<real>, scales: seq<real>, size: nat, target: seq<real>,
                         cell: nat)
    requires |values| == Offset(|scales|, size) && target == NormalizedCells(sqrt, values, scales, size, |scales|)
    requires cell < |scales|
    ensures NormalizedAt(sqrt, values, scales, size, target, cell)
  {
    OffsetIsProduct(cell, size);
    CellNormalized(sqrt, values, scales, size, cell, Offset(cell, size));
  }

  lemma NormalizedCellsAre(sqrt: real -> real, values: seq<real>, scales: seq<real>, size: nat, target: seq<real>)
    requires |values| == Offset(|scales|, size) && target == NormalizedCells(sqrt, values, scales, size, |scales|)
    ensures CellsNormalized(sqrt, values, scales, size, target)
  {
    forall cell: nat | cell < |scales| ensures NormalizedAt(sqrt, values, scales, size, target, cell) {
      CellNormalizedAt(sqrt, values, scales, size, target, cell);
    }
  }

  lemma PreparedParts(sqrt: real -> real, raw: Raw, x: Inputs)
    requires raw.VectorsShaped() && raw.ScalesShaped() && x == Prepared(sqrt, raw)
    ensures x.r == raw.r && x.w == raw.w && x.a == raw.a
    ensures forall j :: 0 <= j < |x.k| ==> x.k[j] == x.a[j] * x.kd[j]
    ensures x.kd == NormalizedCells(sqrt, raw.k, raw.kScale, raw.size, |raw.kScale|)
    ensures x.v == NormalizedCells(sqrt, raw.v, raw.vScale, raw.size, |raw.vScale|)
  {
  }

  /** What a step runs on: keys and values normalised cell by cell, the key multiplied by a, the rest as given. */
  lemma PreparedIsFlat(sqrt: real -> real, raw: Raw, x: Inputs)
    requires raw.VectorsShaped() && raw.ScalesShaped() && x == Prepared(sqrt, raw)
    ensures |raw.kScale| == |raw.vScale| == raw.batch * raw.heads
    ensures x.r == raw.r && x.w == raw.w && x.a == raw.a
    ensures CellsNormalized(sqrt, raw.k, raw.kScale, raw.size, x.kd)
    ensures CellsNormalized(sqrt, raw.v, raw.vScale, raw.size, x.v)
    ensures forall j :: 0 <= j < |x.k| ==> x.k[j] == x.a[j] * x.kd[j]
  {
    PreparedParts(sqrt, raw, x);
    OffsetIsProduct(raw.batch, raw.heads);
    NormalizedCellsAre(sqrt, raw.k, raw.kScale, raw.size, x.kd);
    NormalizedCellsAre(sqrt, raw.v, raw.vScale, raw.size, x.v);
  }

  /** After preparation the key is a * kd in every head, so reusing it as the deformed key changes nothing. */
  lemma PreparedKeys(sqrt: real -> real, raw: Raw, cell: nat)
    requires raw.VectorsShaped() && raw.ScalesShaped() && cell < raw.Cells()
    ensures var h := Prepared(sqrt, raw).HeadAt(cell);
      forall j :: 0 <= j < raw.size ==> h.k[j] == h.a[j] * h.kd[j]
  {
    RowFits(cell, raw.size, raw.Cells());
  }

  lemma {:induction false} ReuseNeverMatters(x: Inputs, state: seq<real>, o: Options, cells: nat)
    requires x.Shaped() && |state| == Offset(x.Cells(), x.CellArea()) && cells <= x.Cells()
    requires forall cell, j :: 0 <= cell < cells && 0 <= j < x.size ==>
        x.HeadAt(cell).k[j] == x.HeadAt(cell).a[j] * x.HeadAt(cell).kd[j]
    ensures OutputCells(x, state, o.(reuse := true), cells) == OutputCells(x, state, o.(reuse := false), cells)
    ensures NextCells(x, state, o.(reuse := true), cells) == NextCells(x, state, o.(reuse := false), cells)
  {
    if cells > 0 {
      ReuseNeverMatters(x, state, o, cells - 1);
      HeadReuse(x.StateAt(state, cells - 1), x.HeadAt(cells - 1), x.ValuesAt(cells - 1), o, x.size);
    }
  }

  lemma {:induction false} HeadReuse(matrix: seq<real>, h: Head, v: seq<real>, o: Options, rows: nat)
    requires h.Sized(|v|) && |matrix| == Offset(|v|, |v|) && rows <= |v|
    requires forall j :: 0 <= j < |v| ==> h.k[j] == h.a[j] * h.kd[j]
    ensures NextRows(matrix, h, v, o.(reuse := true), rows) == NextRows(matrix, h, v, o.(reuse := false), rows)
    ensures HeadOutputs(matrix, h, v, o.(reuse := true)) == HeadOutputs(matrix, h, v, o.(reuse := false))
  {
    forall i | 0 <= i < |v|
      ensures HeadOutputs(matrix, h, v, o.(reuse := true))[i] == HeadOutputs(matrix, h, v, o.(reuse := false))[i]
    {
      ReuseIsHarmless(MatrixRow(matrix, |v|, i), h, v[i], o);
    }
    if rows > 0 {
      HeadReuse(matrix, h, v, o, rows - 1);
      ReuseIsHarmless(MatrixRow(matrix, |v|, rows - 1), h, v[rows - 1], o);
    }
  }

  /** On prepared inputs the reuse switch never changes a step. */
  lemma PreparedReuse(sqrt: real -> real, raw: Raw, state: seq<real>, o: Options)
    requires raw.VectorsShaped() && raw.ScalesShaped()
    requires |state| == Offset(raw.Cells(), Offset(raw.size, raw.size))
    ensures var x := Prepared(sqrt, raw);
      && Outputs(x, state, o.(reuse := true)) == Outputs(x, state, o.(reuse := false))
      && NextState(x, state, o.(reuse := true)) == NextState(x, state, o.(reuse := false))
  {
    var x := Prepared(sqrt, raw);
    forall cell, j | 0 <= cell < x.Cells() && 0 <= j < x.size
      ensures x.HeadAt(cell).k[j] == x.HeadAt(cell).a[j] * x.HeadAt(cell).kd[j]
    {
      PreparedKeys(sqrt, raw, cell);
    }
    ReuseNeverMatters(x, state, o, x.Cells());
  }

  // ----- The scratch entry point -----

  function ScratchError(raw: Raw, state: seq<real>, stateIsZero: bool): Option<ShapeError> {
    if !raw.VectorsShaped() then Some(WrongVectors)
    else if !raw.ScalesShaped() then Some(WrongScales)
    else if stateIsZero && state != [] then Some(StateGivenForZeroState)
    else if !stateIsZero && |state| != Offset(raw.Cells(), Offset(raw.size, raw.size)) then Some(WrongState)
    else None
  }

  /** Vectors are checked first, then scales, then the state: none for zeros, a matrix for every head otherwise. */
  lemma ScratchErrorIs(raw: Raw, state: seq<real>, stateIsZero: bool, cells: nat)
    requires cells == raw.batch * raw.heads
    ensures var error := ScratchError(raw, state, stateIsZero);
      var vectors := |raw.r| == |raw.k| == |raw.v| == |raw.w| == |raw.a| == cells * raw.size;
      var scales := |raw.kScale| == |raw.vScale| == cells;
      && (error == Some(WrongVectors) <==> !vectors)
      && (error == Some(WrongScales) <==> vectors && !scales)
      && (error == Some(StateGivenForZeroState) <==> vectors && scales && stateIsZero && state != [])
      && (error == Some(WrongState) <==>
          vectors && scales && !stateIsZero && |state| != cells * (raw.size * raw.size))
  {
    OffsetIsProduct(raw.batch, raw.heads);
    OffsetIsProduct(cells, raw.size);
    OffsetIsProduct(raw.size, raw.size);
    OffsetIsProduct(cells, raw.size * raw.size);
  }

  /** The state the step starts from: an empty buffer stands for zeros. */
  function StartState(sqrt: real -> real, raw: Raw, state: seq<real>, stateIsZero: bool): (s: seq<real>)
    requires ScratchError(raw, state, stateIsZero) == None
    ensures |s| == Offset(raw.Cells(), Offset(raw.size, raw.size))
  {
    FlatState(Prepared(sqrt, raw), if stateIsZero then None else Some(state))
  }

  /** A zero state is all zeros, any other the one given. */
  lemma StartStateIs(sqrt: real -> real, raw: Raw, state: seq<real>, stateIsZero: bool)
    requires ScratchError(raw, state, stateIsZero) == None
    ensures var start := StartState(sqrt, raw, state, stateIsZero);
      if stateIsZero then forall p :: 0 <= p < |start| ==> start[p] == 0.0 else start == state
  {
  }

  /** Whatever the branch, the outputs are those of the step from the explicit start state. */
  method MiddleScratch(c: Config, kernel: Kernel, sqrt: real -> real, raw: Raw, state: seq<real>, stateIsZero: bool,
                       returnState: bool)
    returns (r: Result<(array<real>, Option<array<real>>), ShapeError>)
    requires kernel.Usable() && (raw.batch > 1 ==> raw.heads > 0 && raw.size > 0)
    ensures match ScratchError(raw, state, stateIsZero)
      case Some(error) => r == Err(error)
      case None =>
        && r.Ok?
        && r.value.0[..] == Outputs(Prepared(sqrt, raw), StartState(sqrt, raw, state, stateIsZero), c.Applied())
        && (r.value.1.Some? <==> returnState)
        && (returnState ==>
              r.value.1.value[..]
                  == NextState(Prepared(sqrt, raw), StartState(sqrt, raw, state, stateIsZero), c.Applied()))
        && (returnState ==> EntriesStepped(Prepared(sqrt, raw), StartState(sqrt, raw, state, stateIsZero), c,
                                           r.value.1.value[..]))
        && OutputsRead(Prepared(sqrt, raw), NextState(Prepared(sqrt, raw), StartState(sqrt, raw, state, stateIsZero),
                                                      c.Applied()), r.value.0[..])
  {
    var error := ScratchError(raw, state, stateIsZero);
    if error.Some? {
      return Err(error.value);
    }
    var x := Prepare(sqrt, raw);
    var start := if stateIsZero then None else Some(state);
    var output := new real[Offset(x.Cells(), x.size)](_ => 0.0);
    if returnState {
      var nextState := new real[Offset(x.Cells(), x.CellArea())](_ => 0.0);
      StateStep(c, kernel, x, start, output, nextState);
      return Ok((output, Some(nextState)));
    }
    OutputStep(c, kernel, false, x, start, output);
    StepIsFlat(x, FlatState(x, start), c);
    return Ok((output, None));
  }
}
