/** One recurrence step over flat buffers of a whole batch: what it computes, cell by cell. */
module WkvTimestep {
  import opened Wrappers
  import opened Lists
  import opened RealVectors
  import opened WkvRow

  /** Flat (batch, head, index) vectors. */
  datatype Inputs = Inputs(r: seq<real>, k: seq<real>, v: seq<real>, w: seq<real>, a: seq<real>, kd: seq<real>,
                           batch: nat, heads: nat, size: nat)
  {
    function Cells(): nat {
      Offset(batch, heads)
    }

    function CellArea(): nat {
      Offset(size, size)
    }

    predicate Shaped() {
      |r| == |k| == |v| == |w| == |a| == |kd| == Offset(Cells(), size)
    }

    function HeadAt(cell: nat): (h: Head)
      requires Shaped() && cell < Cells()
      ensures h.Sized(size)
    {
      RowFits(cell, size, Cells());
      Head(RowOf(r, size, cell), RowOf(k, size, cell), RowOf(w, size, cell), RowOf(a, size, cell),
           RowOf(kd, size, cell))
    }

    function ValuesAt(cell: nat): (values: seq<real>)
      requires Shaped() && cell < Cells()
      ensures |values| == size
    {
      RowFits(cell, size, Cells());
      RowOf(v, size, cell)
    }

    /** The matrix of a (batch, head) cell. */
    function StateAt(state: seq<real>, cell: nat): (matrix: seq<real>)
      requires |state| == Offset(Cells(), CellArea()) && cell < Cells()
      ensures |matrix| == CellArea()
    {
      RowFits(cell, CellArea(), Cells());
      RowOf(state, CellArea(), cell)
    }
  }

  // ----- The step -----

  /** The first rows of a head's next matrix. */
  function NextRows(matrix: seq<real>, h: Head, v: seq<real>, o: Options, rows: nat): (r: seq<real>)
    requires h.Sized(|v|) && |matrix| == Offset(|v|, |v|) && rows <= |v|
    ensures |r| == Offset(rows, |v|)
  {
    if rows == 0 then []
    else
      RowFits(rows - 1, |v|, |v|);
      NextRows(matrix, h, v, o, rows - 1) + NextRow(RowOf(matrix, |v|, rows - 1), h, v[rows - 1], o)
  }

  function HeadNext(matrix: seq<real>, h: Head, v: seq<real>, o: Options): (r: seq<real>)
    requires h.Sized(|v|) && |matrix| == Offset(|v|, |v|)
    ensures |r| == |matrix|
  {
    NextRows(matrix, h, v, o, |v|)
  }

  /** The outputs of the first cells, one after the other. */
  function OutputCells(x: Inputs, state: seq<real>, o: Options, cells: nat): (r: seq<real>)
    requires x.Shaped() && |state| == Offset(x.Cells(), x.CellArea()) && cells <= x.Cells()
    ensures |r| == Offset(cells, x.size)
  {
    if cells == 0 then []
    else
      OutputCells(x, state, o, cells - 1)
      + HeadOutputs(x.StateAt(state, cells - 1), x.HeadAt(cells - 1), x.ValuesAt(cells - 1), o)
  }

  function Outputs(x: Inputs, state: seq<real>, o: Options): (r: seq<real>)
    requires x.Shaped() && |state| == Offset(x.Cells(), x.CellArea())
    ensures |r| == Offset(x.Cells(), x.size)
  {
    OutputCells(x, state, o, x.Cells())
  }

  function NextCells(x: Inputs, state: seq<real>, o: Options, cells: nat): (r: seq<real>)
    requires x.Shaped() && |state| == Offset(x.Cells(), x.CellArea()) && cells <= x.Cells()
    ensures |r| == Offset(cells, x.CellArea())
  {
    if cells == 0 then []
    else
      NextCells(x, state, o, cells - 1)
      + HeadNext(x.StateAt(state, cells - 1), x.HeadAt(cells - 1), x.ValuesAt(cells - 1), o)
  }

  function NextState(x: Inputs, state: seq<real>, o: Options): (r: seq<real>)
    requires x.Shaped() && |state| == Offset(x.Cells(), x.CellArea())
    ensures |r| == |state|
  {
    NextCells(x, state, o, x.Cells())
  }

  // ----- Reading the flat results -----

  /** Row `i` of a buffer that ends in one more row. */
  lemma RowOfSnoc(front: seq<real>, last: seq<real>, size: nat, rows: nat, i: nat)
    requires |front| == Offset(rows, size) && |last| == size && i <= rows
    ensures Offset(i, size) + size <= |front + last|
    ensures RowOf(front + last, size, i) == if i == rows then last else (RowFits(i, size, rows); RowOf(front, size, i))
  {
    if i < rows {
      RowFits(i, size, rows);
    }
  }

  lemma {:induction false} NextRowsAt(matrix: seq<real>, h: Head, v: seq<real>, o: Options, rows: nat, i: nat)
    requires h.Sized(|v|) && |matrix| == Offset(|v|, |v|) && i < rows <= |v|
    ensures Offset(i, |v|) + |v| <= |NextRows(matrix, h, v, o, rows)| && Offset(i, |v|) + |v| <= |matrix|
    ensures RowOf(NextRows(matrix, h, v, o, rows), |v|, i) == NextRow(RowOf(matrix, |v|, i), h, v[i], o)
  {
    RowFits(i, |v|, |v|);
    RowFits(rows - 1, |v|, |v|);
    RowOfSnoc(NextRows(matrix, h, v, o, rows - 1), NextRow(RowOf(matrix, |v|, rows - 1), h, v[rows - 1], o), |v|,
              rows - 1, i);
    if i < rows - 1 {
      NextRowsAt(matrix, h, v, o, rows - 1, i);
    }
  }

  lemma {:induction false} OutputCellsAt(x: Inputs, state: seq<real>, o: Options, cells: nat, cell: nat)
    requires x.Shaped() && |state| == Offset(x.Cells(), x.CellArea()) && cell < cells <= x.Cells()
    ensures Offset(cell, x.size) + x.size <= |OutputCells(x, state, o, cells)|
    ensures RowOf(OutputCells(x, state, o, cells), x.size, cell)
         == HeadOutputs(x.StateAt(state, cell), x.HeadAt(cell), x.ValuesAt(cell), o)
  {
    RowOfSnoc(OutputCells(x, state, o, cells - 1),
              HeadOutputs(x.StateAt(state, cells - 1), x.HeadAt(cells - 1), x.ValuesAt(cells - 1), o), x.size,
              cells - 1, cell);
    if cell < cells - 1 {
      OutputCellsAt(x, state, o, cells - 1, cell);
    }
  }

  lemma {:induction false} NextCellsAt(x: Inputs, state: seq<real>, o: Options, cells: nat, cell: nat)
    requires x.Shaped() && |state| == Offset(x.Cells(), x.CellArea()) && cell < cells <= x.Cells()
    ensures Offset(cell, x.CellArea()) + x.CellArea() <= |NextCells(x, state, o, cells)|
    ensures RowOf(NextCells(x, state, o, cells), x.CellArea(), cell)
         == HeadNext(x.StateAt(state, cell), x.HeadAt(cell), x.ValuesAt(cell), o)
  {
    RowOfSnoc(NextCells(x, state, o, cells - 1),
              HeadNext(x.StateAt(state, cells - 1), x.HeadAt(cells - 1), x.ValuesAt(cells - 1), o), x.CellArea(),
              cells - 1, cell);
    if cell < cells - 1 {
      NextCellsAt(x, state, o, cells - 1, cell);
    }
  }

  function MatrixRow(matrix: seq<real>, size: nat, i: nat): (r: seq<real>)
    requires i < size && |matrix| == Offset(size, size)
    ensures |r| == size
  {
    RowFits(i, size, size);
    RowOf(matrix, size, i)
  }

  lemma NextMatrixRow(matrix: seq<real>, h: Head, v: seq<real>, o: Options, i: nat)
    requires h.Sized(|v|) && |matrix| == Offset(|v|, |v|) && i < |v|
    ensures MatrixRow(HeadNext(matrix, h, v, o), |v|, i) == NextRow(MatrixRow(matrix, |v|, i), h, v[i], o)
  {
    NextRowsAt(matrix, h, v, o, |v|, i);
  }

  /** An entry of S diag(w) - (S kd) dk^T + v k^T. */
  function StepEntry(s: seq<real>, h: Head, value: real, reuse: bool, j: nat): real
    requires h.Sized(|s|) && j < |s|
  {
    s[j] * h.w[j] - Dot(s, h.kd) * DeformedKey(h, reuse, j) + value * h.k[j]
  }

  lemma NextRowEntry(s: seq<real>, h: Head, value: real, o: Options, j: nat)
    requires h.Sized(|s|) && j < |s| && !o.skip && o.threshold.None?
    ensures NextRow(s, h, value, o)[j] == StepEntry(s, h, value, o.reuse, j)
  {
  }

  /** In a cell, every entry of the next matrix is S_ij w_j - (S kd)_i dk_j + v_i k_j. */
  lemma MatrixStep(matrix: seq<real>, h: Head, v: seq<real>, o: Options, i: nat)
    requires h.Sized(|v|) && |matrix| == Offset(|v|, |v|) && i < |v| && !o.skip && o.threshold.None?
    ensures forall j :: 0 <= j < |v| ==>
      MatrixRow(HeadNext(matrix, h, v, o), |v|, i)[j] == StepEntry(MatrixRow(matrix, |v|, i), h, v[i], o.reuse, j)
  {
    var s := MatrixRow(matrix, |v|, i);
    NextMatrixRow(matrix, h, v, o, i);
    forall j | 0 <= j < |v| ensures NextRow(s, h, v[i], o)[j] == StepEntry(s, h, v[i], o.reuse, j) {
      NextRowEntry(s, h, v[i], o, j);
    }
  }

  /** Every output of a cell is the readout of its row of the next matrix. */
  lemma OutputIsReadout(matrix: seq<real>, h: Head, v: seq<real>, o: Options, i: nat)
    requires h.Sized(|v|) && |matrix| == Offset(|v|, |v|) && i < |v|
    ensures HeadOutputs(matrix, h, v, o)[i] == Dot(MatrixRow(HeadNext(matrix, h, v, o), |v|, i), h.r)
  {
    NextMatrixRow(matrix, h, v, o, i);
    ReadoutIs(matrix, h, v, o, i);
  }

  lemma ReadoutIs(matrix: seq<real>, h: Head, v: seq<real>, o: Options, i: nat)
    requires h.Sized(|v|) && |matrix| == Offset(|v|, |v|) && i < |v|
    ensures HeadOutputs(matrix, h, v, o)[i] == Dot(NextRow(MatrixRow(matrix, |v|, i), h, v[i], o), h.r)
  {
  }

  // ----- A zero state -----

  function ZeroState(x: Inputs): (state: seq<real>)
    ensures |state| == Offset(x.Cells(), x.CellArea())
  {
    Splat(Offset(x.Cells(), x.CellArea()), 0.0)
  }

  /** From a zero state a step only writes v k^T, whatever the deformation options. */
  lemma ZeroStateStep(h: Head, v: seq<real>, o: Options, i: nat, j: nat)
    requires h.Sized(|v|) && i < |v| && j < |v|
    ensures NextRow(Splat(|v|, 0.0), h, v[i], o)[j] == v[i] * h.k[j]
    ensures OutRow(Splat(|v|, 0.0), h, v[i], o) == v[i] * Dot(h.k, h.r)
  {
    var zero := Splat(|v|, 0.0);
    SumOfZeros(Times(zero, h.kd), |v|);
    SumOfZeros(Times(zero, Times(h.w, h.r)), |v|);
    OutRowExpanded(zero, h, v[i], o);
    CellFactors(zero, h, v[i], o, Dot(zero, h.kd), j);
    assert (if Skips(o, Dot(zero, h.kd)) then 0.0 else Dot(zero, h.kd)) == 0.0;
  }
}
