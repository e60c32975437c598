/** The recurrence step at the flat indices of its buffers. */
module WkvFlat {
  import opened Wrappers
  import opened Lists
  import opened RealVectors
  import opened WkvRow
  import opened WkvTimestep

  /** The place of a head of a batch among all. */
  function CellOf(x: Inputs, b: nat, head: nat): nat {
    b * x.heads + head
  }

  /** Where the vectors of a cell start, and row `i` of its matrix. */
  function VectorAt(x: Inputs, cell: nat): nat {
    cell * x.size
  }

  function RowStart(x: Inputs, cell: nat, i: nat): nat {
    (cell * x.size + i) * x.size
  }

  lemma RowIndex(cell: nat, i: nat, n: nat)
    ensures cell * (n * n) + i * n == (cell * n + i) * n
  {
    assert (cell * n + i) * n == (cell * n) * n + i * n;
    assert (cell * n) * n == cell * (n * n);
  }

  lemma CellInRange(batch: nat, heads: nat, b: nat, head: nat)
    requires b < batch && head < heads
    ensures b * heads + head < batch * heads
  {
    assert (b + 1) * heads <= batch * heads;
  }

  /**
   The deformation counts unless approximations are on and switch it off or its readout lies within their threshold.
   */
  predicate Deforms(c: Config, left: real) {
    c.active ==> !c.skipConfigured && (c.thresholdConfigured.None? || left < -c.thresholdConfigured.value
                                       || left > c.thresholdConfigured.value)
  }

  /**
   Entry (i, j) of the next matrix of a head whose vectors start at `at` and whose matrix row at `row`: the old one
   decayed, less the share of the row's readout, plus value times key.
   */
  ghost predicate EntryStepped(x: Inputs, state: seq<real>, c: Config, next: seq<real>, at: nat, row: nat, i: nat,
                               j: nat)
    requires x.Shaped() && i < x.size && j < x.size
  {
    && at + x.size <= |x.r| && row + x.size <= |state| == |next|
    && var left := FlatSum(state, row, x.kd, at, x.size);
    next[row + j]
      == state[row + j] * x.w[at + j]
        - (if Deforms(c, left) then left * (if c.reuse then x.k[at + j] else x.a[at + j] * x.kd[at + j]) else 0.0)
        + x.v[at + i] * x.k[at + j]
  }

  /** Output i of that head: the row of the next matrix read out. */
  ghost predicate OutputRead(x: Inputs, next: seq<real>, output: seq<real>, at: nat, row: nat, i: nat)
    requires x.Shaped() && i < x.size
  {
    && at + x.size <= |x.r| == |output| && row + x.size <= |next|
    && output[at + i] == FlatSum(next, row, x.r, at, x.size)
  }

  ghost predicate EntriesStepped(x: Inputs, state: seq<real>, c: Config, next: seq<real>)
    requires x.Shaped()
  {
    forall b: nat, head: nat, i: nat, j: nat :: b < x.batch && head < x.heads && i < x.size && j < x.size ==>
      EntryStepped(x, state, c, next, VectorAt(x, CellOf(x, b, head)), RowStart(x, CellOf(x, b, head), i), i, j)
  }

  ghost predicate OutputsRead(x: Inputs, next: seq<real>, output: seq<real>)
    requires x.Shaped()
  {
    forall b: nat, head: nat, i: nat :: b < x.batch && head < x.heads && i < x.size ==>
      OutputRead(x, next, output, VectorAt(x, CellOf(x, b, head)), RowStart(x, CellOf(x, b, head), i), i)
  }

  // ----- Cells and rows of the buffers -----

  /** Everything that the flat indices of a cell and a row come to. */
  lemma Places(x: Inputs, state: seq<real>, cell: nat, i: nat) returns (at: nat, row: nat)
    requires x.Shaped() && |state| == Offset(x.Cells(), x.CellArea()) && cell < x.Cells() && i < x.size
    ensures at == VectorAt(x, cell) == Offset(cell, x.size) && at + x.size <= |x.r|
    ensures row == RowStart(x, cell, i) == Offset(cell, x.CellArea()) + Offset(i, x.size)
    ensures row + x.size <= |state|
  {
    var n := x.size;
    at, row := Offset(cell, n), Offset(cell, x.CellArea()) + Offset(i, n);
    RowPlace(cell, n, i);
    RowFits(cell, n, x.Cells());
    RowFits(cell, x.CellArea(), x.Cells());
    RowFits(i, n, n);
  }

  lemma CellPlace(batch: nat, heads: nat, b: nat, head: nat)
    requires b < batch && head < heads
    ensures b * heads + head < Offset(batch, heads)
  {
    OffsetIsProduct(batch, heads);
    CellInRange(batch, heads, b, head);
  }

  lemma RowPlace(cell: nat, n: nat, i: nat)
    ensures Offset(cell, n) == cell * n
    ensures Offset(cell, Offset(n, n)) + Offset(i, n) == (cell * n + i) * n
  {
    OffsetIsProduct(cell, n);
    OffsetIsProduct(n, n);
    OffsetIsProduct(i, n);
    OffsetIsProduct(cell, n * n);
    RowIndex(cell, i, n);
  }

  /** Row `i` of cell `cell` of a buffer of matrices. */
  function CellRow(x: Inputs, buffer: seq<real>, cell: nat, i: nat): (r: seq<real>)
    requires |buffer| == Offset(x.Cells(), x.CellArea()) && cell < x.Cells() && i < x.size
    ensures |r| == x.size
  {
    MatrixRow(x.StateAt(buffer, cell), x.size, i)
  }

  lemma CellRowIs(x: Inputs, buffer: seq<real>, cell: nat, i: nat)
    requires |buffer| == Offset(x.Cells(), x.CellArea()) && cell < x.Cells() && i < x.size
    ensures Offset(cell, x.CellArea()) + Offset(i, x.size) + x.size <= |buffer|
    ensures CellRow(x, buffer, cell, i)
         == buffer[Offset(cell, x.CellArea()) + Offset(i, x.size)..Offset(cell, x.CellArea()) + Offset(i, x.size)
             + x.size]
  {
    RowFits(cell, x.CellArea(), x.Cells());
    RowFits(i, x.size, x.size);
    SliceOfSlice(buffer, Offset(cell, x.CellArea()), x.CellArea(), Offset(i, x.size), x.size);
  }

  lemma NextCellRow(x: Inputs, state: seq<real>, o: Options, cell: nat, i: nat)
    requires x.Shaped() && |state| == Offset(x.Cells(), x.CellArea()) && cell < x.Cells() && i < x.size
    ensures CellRow(x, NextState(x, state, o), cell, i)
         == NextRow(CellRow(x, state, cell, i), x.HeadAt(cell), x.ValuesAt(cell)[i], o)
  {
    NextCellsAt(x, state, o, x.Cells(), cell);
    NextMatrixRow(x.StateAt(state, cell), x.HeadAt(cell), x.ValuesAt(cell), o, i);
  }

  lemma SliceAt(buffer: seq<real>, at: nat, n: nat, i: nat)
    requires at + n <= |buffer| && i < n
    ensures buffer[at..at + n][i] == buffer[at + i]
  {
  }

  lemma OutputsOfCell(x: Inputs, state: seq<real>, o: Options, cell: nat, at: nat)
    requires x.Shaped() && |state| == Offset(x.Cells(), x.CellArea()) && cell < x.Cells() && at == Offset(cell, x.size)
    ensures at + x.size <= |Outputs(x, state, o)|
    ensures Outputs(x, state, o)[at..at + x.size]
         == HeadOutputs(x.StateAt(state, cell), x.HeadAt(cell), x.ValuesAt(cell), o)
  {
    OutputCellsAt(x, state, o, x.Cells(), cell);
  }

  lemma ReadoutOfCell(x: Inputs, state: seq<real>, o: Options, cell: nat, i: nat)
    requires x.Shaped() && |state| == Offset(x.Cells(), x.CellArea()) && cell < x.Cells() && i < x.size
    ensures HeadOutputs(x.StateAt(state, cell), x.HeadAt(cell), x.ValuesAt(cell), o)[i]
         == Dot(CellRow(x, NextState(x, state, o), cell, i), x.HeadAt(cell).r)
  {
    NextCellsAt(x, state, o, x.Cells(), cell);
    OutputIsReadout(x.StateAt(state, cell), x.HeadAt(cell), x.ValuesAt(cell), o, i);
  }

  lemma OutputCell(x: Inputs, state: seq<real>, o: Options, cell: nat, i: nat, at: nat)
    requires x.Shaped() && |state| == Offset(x.Cells(), x.CellArea()) && cell < x.Cells() && i < x.size
    requires at == Offset(cell, x.size)
    ensures at + x.size <= |Outputs(x, state, o)|
    ensures Outputs(x, state, o)[at + i] == Dot(CellRow(x, NextState(x, state, o), cell, i), x.HeadAt(cell).r)
  {
    OutputsOfCell(x, state, o, cell, at);
    ReadoutOfCell(x, state, o, cell, i);
    SliceAt(Outputs(x, state, o), at, x.size, i);
  }

  // ----- The step at flat indices -----

  lemma CellSpelledOut(s: seq<real>, h: Head, value: real, c: Config, left: real, j: nat)
    requires h.Sized(|s|) && j < |s| && left == Dot(s, h.kd)
    ensures NextRow(s, h, value, c.Applied())[j]
         == s[j] * h.w[j] - (if Deforms(c, left) then left * (if c.reuse then h.k[j] else h.a[j] * h.kd[j]) else 0.0)
          + value * h.k[j]
  {
  }

  lemma HeadSlices(x: Inputs, cell: nat, at: nat)
    requires x.Shaped() && cell < x.Cells() && at == Offset(cell, x.size) && at + x.size <= |x.r|
    ensures x.HeadAt(cell) == Head(x.r[at..at + x.size], x.k[at..at + x.size], x.w[at..at + x.size],
                                   x.a[at..at + x.size], x.kd[at..at + x.size])
    ensures x.ValuesAt(cell) == x.v[at..at + x.size]
  {
  }

  lemma SlicedEntry(x: Inputs, state: seq<real>, c: Config, row: nat, at: nat, i: nat, j: nat, h: Head)
    requires x.Shaped() && i < x.size && j < x.size && at + x.size <= |x.r| && row + x.size <= |state|
    requires h == Head(x.r[at..at + x.size], x.k[at..at + x.size], x.w[at..at + x.size],
                       x.a[at..at + x.size], x.kd[at..at + x.size])
    ensures var left := FlatSum(state, row, x.kd, at, x.size);
      NextRow(state[row..row + x.size], h, x.v[at + i], c.Applied())[j]
      == state[row + j] * x.w[at + j]
        - (if Deforms(c, left) then left * (if c.reuse then x.k[at + j] else x.a[at + j] * x.kd[at + j]) else 0.0)
        + x.v[at + i] * x.k[at + j]
  {
    var n := x.size;
    DotOfSlices(state, row, x.kd, at, n);
    CellSpelledOut(state[row..row + n], h, x.v[at + i], c, FlatSum(state, row, x.kd, at, n), j);
    assert state[row..row + n][j] == state[row + j] && h.w[j] == x.w[at + j] && h.k[j] == x.k[at + j];
    assert h.a[j] == x.a[at + j] && h.kd[j] == x.kd[at + j];
  }

  lemma NextSlice(x: Inputs, state: seq<real>, o: Options, cell: nat, i: nat, row: nat)
    requires x.Shaped() && |state| == Offset(x.Cells(), x.CellArea()) && cell < x.Cells() && i < x.size
    requires row == Offset(cell, x.CellArea()) + Offset(i, x.size) && row + x.size <= |state|
    ensures NextState(x, state, o)[row..row + x.size]
         == NextRow(state[row..row + x.size], x.HeadAt(cell), x.ValuesAt(cell)[i], o)
  {
    CellRowIs(x, state, cell, i);
    CellRowIs(x, NextState(x, state, o), cell, i);
    NextCellRow(x, state, o, cell, i);
  }

  lemma NextAt(x: Inputs, state: seq<real>, o: Options, cell: nat, i: nat, j: nat, at: nat, row: nat, h: Head)
    requires x.Shaped() && |state| == Offset(x.Cells(), x.CellArea())
    requires cell < x.Cells() && i < x.size && j < x.size && at == Offset(cell, x.size) && at + x.size <= |x.r|
    requires row == Offset(cell, x.CellArea()) + Offset(i, x.size) && row + x.size <= |state|
    requires h == x.HeadAt(cell)
    ensures NextState(x, state, o)[row + j] == NextRow(state[row..row + x.size], h, x.v[at + i], o)[j]
  {
    NextSlice(x, state, o, cell, i, row);
    HeadSlices(x, cell, at);
    SliceAt(x.v, at, x.size, i);
    SliceAt(NextState(x, state, o), row, x.size, j);
  }

  lemma EntryIsFlat(x: Inputs, state: seq<real>, c: Config, cell: nat, i: nat, j: nat, at: nat, row: nat)
    requires x.Shaped() && |state| == Offset(x.Cells(), x.CellArea())
    requires cell < x.Cells() && i < x.size && j < x.size && at == Offset(cell, x.size) && at + x.size <= |x.r|
    requires row == Offset(cell, x.CellArea()) + Offset(i, x.size) && row + x.size <= |state|
    ensures EntryStepped(x, state, c, NextState(x, state, c.Applied()), at, row, i, j)
  {
    var h := x.HeadAt(cell);
    NextAt(x, state, c.Applied(), cell, i, j, at, row, h);
    HeadSlices(x, cell, at);
    SlicedEntry(x, state, c, row, at, i, j, h);
  }

  lemma OutputIsFlat(x: Inputs, state: seq<real>, o: Options, cell: nat, i: nat, at: nat, row: nat)
    requires x.Shaped() && |state| == Offset(x.Cells(), x.CellArea())
    requires cell < x.Cells() && i < x.size && at == Offset(cell, x.size) && at + x.size <= |x.r|
    requires row == Offset(cell, x.CellArea()) + Offset(i, x.size) && row + x.size <= |state|
    ensures OutputRead(x, NextState(x, state, o), Outputs(x, state, o), at, row, i)
  {
    var n, next := x.size, NextState(x, state, o);
    CellRowIs(x, next, cell, i);
    OutputCell(x, state, o, cell, i, at);
    DotOfSlices(next, row, x.r, at, n);
    HeadSlices(x, cell, at);
  }

  /** Every entry and every output of the step, for every batch, head and index. */
  lemma StepIsFlat(x: Inputs, state: seq<real>, c: Config)
    requires x.Shaped() && |state| == Offset(x.Cells(), x.CellArea())
    ensures EntriesStepped(x, state, c, NextState(x, state, c.Applied()))
    ensures OutputsRead(x, NextState(x, state, c.Applied()), Outputs(x, state, c.Applied()))
  {
    var o := c.Applied();
    forall b: nat, head: nat, i: nat, j: nat | b < x.batch && head < x.heads && i < x.size && j < x.size
      ensures EntryStepped(x, state, c, NextState(x, state, o), VectorAt(x, CellOf(x, b, head)),
                           RowStart(x, CellOf(x, b, head), i), i, j)
    {
      CellPlace(x.batch, x.heads, b, head);
      var cell := CellOf(x, b, head);
      var at, row := Places(x, state, cell, i);
      EntryIsFlat(x, state, c, cell, i, j, at, row);
    }
    forall b: nat, head: nat, i: nat | b < x.batch && head < x.heads && i < x.size
      ensures OutputRead(x, NextState(x, state, o), Outputs(x, state, o), VectorAt(x, CellOf(x, b, head)),
                         RowStart(x, CellOf(x, b, head), i), i)
    {
      CellPlace(x.batch, x.heads, b, head);
      var cell := CellOf(x, b, head);
      var at, row := Places(x, state, cell, i);
      OutputIsFlat(x, state, o, cell, i, at, row);
    }
  }
}
