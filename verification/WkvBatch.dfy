/** The loops of one recurrence step over a batch: chunks in any order, or one batch after the other. */
module WkvBatch {
  import opened Wrappers
  import opened Lists
  import opened RealVectors
  import opened WkvRow
  import opened WkvHead
  import opened WkvFlat
  import opened WkvTimestep

  /** A head's matrix; none stands for a zero state, whose rows are never stored. */
  function MatrixOf(matrix: Option<seq<real>>, size: nat): (r: seq<real>)
    requires matrix.Some? ==> |matrix.value| == Offset(size, size)
    ensures |r| == Offset(size, size)
  {
    if matrix.Some? then matrix.value else Splat(Offset(size, size), 0.0)
  }

  function RowAt(matrix: Option<seq<real>>, size: nat, i: nat): (r: seq<real>)
    requires i < size && (matrix.Some? ==> |matrix.value| == Offset(size, size))
    ensures r == MatrixRow(MatrixOf(matrix, size), size, i)
  {
    RowOfSplat(size, size, i);
    if matrix.Some? then MatrixRow(matrix.value, size, i) else Splat(size, 0.0)
  }

  // ----- One head -----

  method StateHead(c: Config, kernel: Kernel, matrix: Option<seq<real>>, h: Head, v: seq<real>,
                   output: array<real>, outAt: nat, nextState: array<real>, nextAt: nat)
    requires h.Sized(|v|) && kernel.Usable() && (matrix.Some? ==> |matrix.value| == Offset(|v|, |v|))
        && output != nextState
    requires outAt + |v| <= output.Length && nextAt + Offset(|v|, |v|) <= nextState.Length
    modifies output, nextState
    ensures output[..] == Overwrite(old(output[..]), outAt, HeadOutputs(MatrixOf(matrix, |v|), h, v, c.Applied()))
    ensures nextState[..] == Overwrite(old(nextState[..]), nextAt, HeadNext(MatrixOf(matrix, |v|), h, v, c.Applied()))
  {
    ghost var m := MatrixOf(matrix, |v|);
    ghost var outBefore, nextBefore, target := output[..], nextState[..], HeadOutputs(m, h, v, c.Applied());
    for i := 0 to |v|
      invariant Offset(i, |v|) <= Offset(|v|, |v|)
      invariant output[..] == Overwrite(outBefore, outAt, target[..i])
      invariant nextState[..] == Overwrite(nextBefore, nextAt, NextRows(m, h, v, c.Applied(), i))
    {
      RowFits(i, |v|, |v|);
      var value := StateRowAt(c, kernel, matrix, h, v, i, nextState, nextAt, nextBefore);
      WriteNext(output, outAt, outBefore, target, i, value);
    }
    assert target[..|v|] == target;
  }

  method StateRowAt(c: Config, kernel: Kernel, matrix: Option<seq<real>>, h: Head, v: seq<real>, i: nat,
                    nextState: array<real>, nextAt: nat, ghost before: seq<real>)
    returns (value: real)
    requires h.Sized(|v|) && kernel.Usable() && i < |v| && (matrix.Some? ==> |matrix.value| == Offset(|v|, |v|))
    requires nextAt + Offset(i, |v|) + |v| <= nextState.Length == |before|
    requires nextState[..] == Overwrite(before, nextAt, NextRows(MatrixOf(matrix, |v|), h, v, c.Applied(), i))
    modifies nextState
    ensures nextState[..] == Overwrite(before, nextAt, NextRows(MatrixOf(matrix, |v|), h, v, c.Applied(), i + 1))
    ensures value == HeadOutputs(MatrixOf(matrix, |v|), h, v, c.Applied())[i]
  {
    ghost var m := MatrixOf(matrix, |v|);
    OffsetIsProduct(i, |v|);
    value := StateOutputRow(c, kernel, RowAt(matrix, |v|, i), nextState, nextAt + i * |v|, h, v[i]);
    AppendWrite(before, nextAt, NextRows(m, h, v, c.Applied(), i),
                NextRow(RowAt(matrix, |v|, i), h, v[i], c.Applied()));
  }

  /** Output only, one dispatch per row. */
  method OutputRows(c: Config, kernel: Kernel, matrix: Option<seq<real>>, h: Head, v: seq<real>, output: array<real>,
                    outAt: nat)
    requires h.Sized(|v|) && kernel.Usable() && (matrix.Some? ==> |matrix.value| == Offset(|v|, |v|))
    requires outAt + |v| <= output.Length
    modifies output
    ensures output[..] == Overwrite(old(output[..]), outAt, HeadOutputs(MatrixOf(matrix, |v|), h, v, c.Applied()))
  {
    ghost var before, target := output[..], HeadOutputs(MatrixOf(matrix, |v|), h, v, c.Applied());
    for i := 0 to |v|
      invariant output[..] == Overwrite(before, outAt, target[..i])
    {
      var value := OutputRow(c, kernel, RowAt(matrix, |v|, i), h, v[i]);
      WriteNext(output, outAt, before, target, i, value);
    }
    assert target[..|v|] == target;
  }

  // ----- One cell at its place in the flat buffers -----

  /** The state of the step: the flat buffer, or none for a zero state. */
  function FlatState(x: Inputs, state: Option<seq<real>>): (r: seq<real>)
    requires state.Some? ==> |state.value| == Offset(x.Cells(), x.CellArea())
    ensures |r| == Offset(x.Cells(), x.CellArea())
  {
    if state.Some? then state.value else ZeroState(x)
  }

  function CellMatrix(x: Inputs, state: Option<seq<real>>, cell: nat): (r: Option<seq<real>>)
    requires cell < x.Cells() && (state.Some? ==> |state.value| == Offset(x.Cells(), x.CellArea()))
    ensures r.Some? ==> |r.value| == Offset(x.size, x.size)
    ensures MatrixOf(r, x.size) == x.StateAt(FlatState(x, state), cell)
  {
    RowOfSplat(x.CellArea(), x.Cells(), cell);
    if state.Some? then Some(x.StateAt(state.value, cell)) else None
  }

  /** The positions of a cell, computed from the start of its batch chunk as the loops do. */
  method Place(x: Inputs, b: nat, h: nat) returns (cell: nat, outAt: nat, nextAt: nat)
    requires b < x.batch && h < x.heads
    ensures cell == Offset(b, x.heads) + h < x.Cells()
    ensures outAt == Offset(cell, x.size) && nextAt == Offset(cell, x.CellArea())
    ensures outAt + x.size <= Offset(x.Cells(), x.size) && nextAt + x.CellArea() <= Offset(x.Cells(), x.CellArea())
  {
    cell := b * x.heads + h;
    assert cell == Offset(b, x.heads) + h by {
      OffsetIsProduct(b, x.heads);
    }
    assert cell < x.Cells() by {
      RowFits(b, x.heads, x.batch);
    }
    outAt := PositionOf(x, b, h, cell, x.size);
    nextAt := PositionOf(x, b, h, cell, x.CellArea());
  }

  /** Where the stretch of a cell starts, from the start of its batch chunk. */
  method PositionOf(x: Inputs, b: nat, h: nat, ghost cell: nat, size: nat) returns (at: nat)
    requires cell == Offset(b, x.heads) + h < x.Cells()
    ensures at == Offset(cell, size) && at + size <= Offset(x.Cells(), size)
  {
    PlaceInChunk(b, h, x.heads, size);
    RowFits(cell, size, x.Cells());
    at := b * (x.heads * size) + h * size;
  }

  lemma PlaceInChunk(b: nat, h: nat, heads: nat, size: nat)
    ensures b * (heads * size) + h * size == Offset(Offset(b, heads) + h, size)
  {
    NestedProduct(b, heads, size);
    OffsetIsProduct(h, size);
    OffsetSplits(Offset(b, heads), h, size);
  }

  /** What a run of cells has written: the target between two positions, over what was there before. */
  ghost predicate Written(buffer: seq<real>, before: seq<real>, target: seq<real>, from: nat, upTo: nat) {
    from <= upTo <= |target| && |target| == |before| && buffer == Overwrite(before, from, target[from..upTo])
  }

  lemma WrittenOn(buffer: seq<real>, before: seq<real>, target: seq<real>, from: nat, upTo: nat, values: seq<real>)
    requires Written(buffer, before, target, from, upTo) && upTo + |values| <= |target|
        && target[upTo..upTo + |values|] == values
    ensures Written(Overwrite(buffer, upTo, values), before, target, from, upTo + |values|)
  {
    AppendWrite(before, from, target[from..upTo], values);
    assert target[from..upTo + |values|] == target[from..upTo] + values;
  }

  /** Both buffers after the step was taken in the cells from `from` on, below `upTo`. */
  ghost predicate Stepped(c: Config, x: Inputs, state: seq<real>, output: seq<real>, nextState: seq<real>,
                          outBefore: seq<real>, nextBefore: seq<real>, from: nat, upTo: nat)
    requires x.Shaped() && |state| == Offset(x.Cells(), x.CellArea())
  {
    && Written(output, outBefore, Outputs(x, state, c.Applied()), Offset(from, x.size), Offset(upTo, x.size))
    && Written(nextState, nextBefore, NextState(x, state, c.Applied()), Offset(from, x.CellArea()),
               Offset(upTo, x.CellArea()))
  }

  /** One more row of equal size written on. */
  lemma RowWritten(buffer: seq<real>, before: seq<real>, target: seq<real>, size: nat, from: nat, cell: nat,
                   values: seq<real>)
    requires Written(buffer, before, target, Offset(from, size), Offset(cell, size))
    requires Offset(cell, size) + size <= |target| && RowOf(target, size, cell) == values
    ensures Written(Overwrite(buffer, Offset(cell, size), values), before, target, Offset(from, size),
                    Offset(cell + 1, size))
  {
    WrittenOn(buffer, before, target, Offset(from, size), Offset(cell, size), values);
  }

  lemma OutputWritten(x: Inputs, state: seq<real>, o: Options, output: seq<real>, before: seq<real>, from: nat,
                      cell: nat, values: seq<real>)
    requires x.Shaped() && |state| == Offset(x.Cells(), x.CellArea()) && cell < x.Cells()
    requires Written(output, before, Outputs(x, state, o), Offset(from, x.size), Offset(cell, x.size))
    requires Offset(cell, x.size) + |values| <= |output|
    requires values == HeadOutputs(x.StateAt(state, cell), x.HeadAt(cell), x.ValuesAt(cell), o)
    ensures Written(Overwrite(output, Offset(cell, x.size), values), before, Outputs(x, state, o),
                    Offset(from, x.size), Offset(cell + 1, x.size))
  {
    OutputCellsAt(x, state, o, x.Cells(), cell);
    RowWritten(output, before, Outputs(x, state, o), x.size, from, cell, values);
  }

  lemma CellWritten(c: Config, x: Inputs, state: seq<real>, output: seq<real>, nextState: seq<real>,
                    outBefore: seq<real>, nextBefore: seq<real>, from: nat, cell: nat, values: seq<real>,
                    matrix: seq<real>)
    requires x.Shaped() && |state| == Offset(x.Cells(), x.CellArea()) && cell < x.Cells()
    requires Stepped(c, x, state, output, nextState, outBefore, nextBefore, from, cell)
    requires Offset(cell, x.size) + |values| <= |output| && Offset(cell, x.CellArea()) + |matrix| <= |nextState|
    requires values == HeadOutputs(x.StateAt(state, cell), x.HeadAt(cell), x.ValuesAt(cell), c.Applied())
    requires matrix == HeadNext(x.StateAt(state, cell), x.HeadAt(cell), x.ValuesAt(cell), c.Applied())
    ensures Stepped(c, x, state, Overwrite(output, Offset(cell, x.size), values),
                    Overwrite(nextState, Offset(cell, x.CellArea()), matrix), outBefore, nextBefore, from, cell + 1)
  {
    var o := c.Applied();
    var nextTarget := NextState(x, state, o);
    OutputWritten(x, state, o, output, outBefore, from, cell, values);
    assert Written(Overwrite(nextState, Offset(cell, x.CellArea()), matrix), nextBefore, nextTarget,
                   Offset(from, x.CellArea()), Offset(cell + 1, x.CellArea())) by {
      NextCellsAt(x, state, o, x.Cells(), cell);
      RowWritten(nextState, nextBefore, nextTarget, x.CellArea(), from, cell, matrix);
    }
  }

  /** One head of the step at its place in both buffers. */
  method StateCell(c: Config, kernel: Kernel, x: Inputs, state: Option<seq<real>>, b: nat, h: nat,
                   output: array<real>, nextState: array<real>, ghost outBefore: seq<real>, ghost nextBefore: seq<real>,
                   ghost from: nat, ghost upTo: nat)
    requires x.Shaped() && kernel.Usable() && b < x.batch && h < x.heads && output != nextState
    requires upTo == Offset(b, x.heads) + h
    requires state.Some? ==> |state.value| == Offset(x.Cells(), x.CellArea())
    requires Stepped(c, x, FlatState(x, state), output[..], nextState[..], outBefore, nextBefore, from, upTo)
    modifies output, nextState
    ensures Stepped(c, x, FlatState(x, state), output[..], nextState[..], outBefore, nextBefore, from, upTo + 1)
  {
    var cell, outAt, nextAt := Place(x, b, h);
    ghost var s, o := FlatState(x, state), c.Applied();
    ghost var outNow, nextNow := output[..], nextState[..];
    ghost var values := HeadOutputs(x.StateAt(s, upTo), x.HeadAt(upTo), x.ValuesAt(upTo), o);
    ghost var matrix := HeadNext(x.StateAt(s, upTo), x.HeadAt(upTo), x.ValuesAt(upTo), o);
    StateHead(c, kernel, CellMatrix(x, state, cell), x.HeadAt(cell), x.ValuesAt(cell), output, outAt, nextState,
              nextAt);
    assert output[..] == Overwrite(outNow, Offset(upTo, x.size), values);
    assert nextState[..] == Overwrite(nextNow, Offset(upTo, x.CellArea()), matrix);
    CellWritten(c, x, s, outNow, nextNow, outBefore, nextBefore, from, upTo, values, matrix);
  }

  /** One batch of the step with its next state, head by head. */
  method StateBatch(c: Config, kernel: Kernel, x: Inputs, state: Option<seq<real>>, b: nat, output: array<real>,
                    nextState: array<real>)
    requires x.Shaped() && kernel.Usable() && b < x.batch && output != nextState
    requires state.Some? ==> |state.value| == Offset(x.Cells(), x.CellArea())
    requires output.Length == Offset(x.Cells(), x.size) && nextState.Length == Offset(x.Cells(), x.CellArea())
    modifies output, nextState
    ensures Stepped(c, x, FlatState(x, state), output[..], nextState[..], old(output[..]), old(nextState[..]),
                    Offset(b, x.heads), Offset(b + 1, x.heads))
  {
    ghost var outBefore, nextBefore := output[..], nextState[..];
    NothingStepped(c, x, FlatState(x, state), outBefore, nextBefore, b);
    ghost var from, upTo := Offset(b, x.heads), Offset(b, x.heads);
    for h := 0 to x.heads
      invariant upTo == from + h
      invariant Stepped(c, x, FlatState(x, state), output[..], nextState[..], outBefore, nextBefore, from, upTo)
    {
      StateCell(c, kernel, x, state, b, h, output, nextState, outBefore, nextBefore, from, upTo);
      upTo := upTo + 1;
    }
    assert upTo == Offset(b + 1, x.heads);
  }

  /** No head of a batch stepped yet. */
  lemma NothingStepped(c: Config, x: Inputs, state: seq<real>, output: seq<real>, nextState: seq<real>, b: nat)
    requires x.Shaped() && |state| == Offset(x.Cells(), x.CellArea()) && b < x.batch
    requires |output| == Offset(x.Cells(), x.size) && |nextState| == Offset(x.Cells(), x.CellArea())
    ensures Stepped(c, x, state, output, nextState, output, nextState, Offset(b, x.heads), Offset(b, x.heads))
  {
    CellsFit(x, b);
  }

  lemma CellsFit(x: Inputs, b: nat)
    requires b < x.batch
    ensures Offset(Offset(b, x.heads), x.size) <= Offset(x.Cells(), x.size)
    ensures Offset(Offset(b, x.heads), x.CellArea()) <= Offset(x.Cells(), x.CellArea())
  {
    OffsetGrows(b, x.batch, x.heads);
    OffsetGrows(Offset(b, x.heads), x.Cells(), x.size);
    OffsetGrows(Offset(b, x.heads), x.Cells(), x.CellArea());
  }

  // ----- All batches -----

  /** Writing one batch chunk of a target completes that chunk and leaves the others. */
  lemma ChunkWritten(buffer: seq<real>, before: seq<real>, target: seq<real>, batch: nat, heads: nat, size: nat,
                     b: nat, i: nat)
    requires b < batch && i < batch && |target| == Offset(Offset(batch, heads), size)
    requires Written(buffer, before, target, Offset(Offset(b, heads), size), Offset(Offset(b + 1, heads), size))
    requires i != b ==> SameRow(before, target, Offset(heads, size), i)
    ensures SameRow(buffer, target, Offset(heads, size), i)
  {
    OffsetNests(b, heads, size);
    OffsetNests(b + 1, heads, size);
    OffsetNests(batch, heads, size);
    RowFits(i, Offset(heads, size), batch);
    RowFits(b, Offset(heads, size), batch);
    OverwriteRow(before, Offset(heads, size), batch, b, RowOf(target, Offset(heads, size), b), i);
  }

  lemma ChunksComplete(buffer: seq<real>, target: seq<real>, batch: nat, heads: nat, size: nat)
    requires |buffer| == |target| == Offset(Offset(batch, heads), size)
    requires forall i :: 0 <= i < batch ==> SameRow(buffer, target, Offset(heads, size), i)
    ensures buffer == target
  {
    OffsetNests(batch, heads, size);
    RowsDetermine(buffer, target, Offset(heads, size), batch, batch);
    assert buffer == buffer[..|buffer|] && target == target[..|target|];
  }

  /** Batches that are already stepped in both buffers. */
  ghost predicate Done(c: Config, x: Inputs, state: seq<real>, output: seq<real>, nextState: seq<real>, i: nat)
    requires x.Shaped() && |state| == Offset(x.Cells(), x.CellArea())
  {
    && SameRow(output, Outputs(x, state, c.Applied()), Offset(x.heads, x.size), i)
    && SameRow(nextState, NextState(x, state, c.Applied()), Offset(x.heads, x.CellArea()), i)
  }

  lemma BatchDone(c: Config, x: Inputs, state: seq<real>, output: seq<real>, nextState: seq<real>,
                  outBefore: seq<real>, nextBefore: seq<real>, b: nat, i: nat)
    requires x.Shaped() && |state| == Offset(x.Cells(), x.CellArea()) && b < x.batch && i < x.batch
    requires Stepped(c, x, state, output, nextState, outBefore, nextBefore, Offset(b, x.heads), Offset(b + 1, x.heads))
    requires i != b ==> Done(c, x, state, outBefore, nextBefore, i)
    ensures Done(c, x, state, output, nextState, i)
  {
    ChunkWritten(output, outBefore, Outputs(x, state, c.Applied()), x.batch, x.heads, x.size, b, i);
    ChunkWritten(nextState, nextBefore, NextState(x, state, c.Applied()), x.batch, x.heads, x.CellArea(), b, i);
  }

  function Below(n: nat): (r: set<nat>)
    ensures forall i: nat :: i in r <==> i < n
  {
    if n == 0 then {} else Below(n - 1) + {n - 1}
  }

  /** One more batch, taken from those that wait. */
  method StateBatchOf(c: Config, kernel: Kernel, x: Inputs, state: Option<seq<real>>, b: nat, output: array<real>,
                      nextState: array<real>, ghost waiting: set<nat>)
    requires x.Shaped() && kernel.Usable() && b < x.batch && output != nextState
    requires state.Some? ==> |state.value| == Offset(x.Cells(), x.CellArea())
    requires output.Length == Offset(x.Cells(), x.size) && nextState.Length == Offset(x.Cells(), x.CellArea())
    requires forall i: nat :: i < x.batch && i !in waiting ==>
        Done(c, x, FlatState(x, state), output[..], nextState[..], i)
    modifies output, nextState
    ensures forall i: nat :: i < x.batch && i !in waiting - {b} ==>
        Done(c, x, FlatState(x, state), output[..], nextState[..], i)
  {
    ghost var outBefore, nextBefore := output[..], nextState[..];
    StateBatch(c, kernel, x, state, b, output, nextState);
    forall i: nat | i < x.batch && i !in waiting - {b}
        ensures Done(c, x, FlatState(x, state), output[..], nextState[..], i) {
      BatchDone(c, x, FlatState(x, state), output[..], nextState[..], outBefore, nextBefore, b, i);
    }
  }

  lemma AllDone(c: Config, x: Inputs, state: seq<real>, output: seq<real>, nextState: seq<real>)
    requires x.Shaped() && |state| == Offset(x.Cells(), x.CellArea())
    requires |output| == Offset(x.Cells(), x.size) && |nextState| == Offset(x.Cells(), x.CellArea())
    requires forall i: nat :: i < x.batch ==> Done(c, x, state, output, nextState, i)
    ensures output == Outputs(x, state, c.Applied()) && nextState == NextState(x, state, c.Applied())
  {
    forall i | 0 <= i < x.batch
      ensures SameRow(output, Outputs(x, state, c.Applied()), Offset(x.heads, x.size), i)
      ensures SameRow(nextState, NextState(x, state, c.Applied()), Offset(x.heads, x.CellArea()), i)
    {
      assert Done(c, x, state, output, nextState, i);
    }
    ChunksComplete(output, Outputs(x, state, c.Applied()), x.batch, x.heads, x.size);
    ChunksComplete(nextState, NextState(x, state, c.Applied()), x.batch, x.heads, x.CellArea());
  }

  /** Several batches run as independent chunks, in any order; a single one runs in sequence. */
  method StateStep(c: Config, kernel: Kernel, x: Inputs, state: Option<seq<real>>, output: array<real>,
                   nextState: array<real>)
    requires x.Shaped() && kernel.Usable() && output != nextState
    requires state.Some? ==> |state.value| == Offset(x.Cells(), x.CellArea())
    requires output.Length == Offset(x.Cells(), x.size) && nextState.Length == Offset(x.Cells(), x.CellArea())
    modifies output, nextState
    ensures output[..] == Outputs(x, FlatState(x, state), c.Applied())
    ensures nextState[..] == NextState(x, FlatState(x, state), c.Applied())
    ensures EntriesStepped(x, FlatState(x, state), c, nextState[..]) && OutputsRead(x, nextState[..], output[..])
  {
    StepIsFlat(x, FlatState(x, state), c);
    if x.batch > 1 {
      StateChunks(c, kernel, x, state, output, nextState);
    } else {
      ghost var waiting := Below(x.batch);
      for b := 0 to x.batch
        invariant forall i: nat :: i in waiting <==> b <= i < x.batch
        invariant forall i: nat :: i < x.batch && i !in waiting ==>
            Done(c, x, FlatState(x, state), output[..], nextState[..], i)
      {
        StateBatchOf(c, kernel, x, state, b, output, nextState, waiting);
        waiting := waiting - {b};
      }
    }
    AllDone(c, x, FlatState(x, state), output[..], nextState[..]);
  }

  method StateChunks(c: Config, kernel: Kernel, x: Inputs, state: Option<seq<real>>, output: array<real>,
                     nextState: array<real>)
    requires x.Shaped() && kernel.Usable() && output != nextState
    requires state.Some? ==> |state.value| == Offset(x.Cells(), x.CellArea())
    requires output.Length == Offset(x.Cells(), x.size) && nextState.Length == Offset(x.Cells(), x.CellArea())
    modifies output, nextState
    ensures forall i: nat :: i < x.batch ==> Done(c, x, FlatState(x, state), output[..], nextState[..], i)
  {
    var waiting := Below(x.batch);
    while waiting != {}
      invariant forall i: nat :: i in waiting ==> i < x.batch
      invariant forall i: nat :: i < x.batch && i !in waiting ==>
          Done(c, x, FlatState(x, state), output[..], nextState[..], i)
      decreases |waiting|
    {
      var b: nat :| b in waiting;
      StateBatchOf(c, kernel, x, state, b, output, nextState, waiting);
      waiting := waiting - {b};
    }
  }
}
