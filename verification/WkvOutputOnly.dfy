/** The same step without the next state: outputs only, per row or per head. */
module WkvOutputOnly {
  import opened Wrappers
  import opened Lists
  import opened RealVectors
  import opened WkvRow
  import opened WkvHead
  import opened WkvTimestep
  import opened WkvBatch

  /** One head of the step at its place: the head kernel, or one row after the other. */
  method OutputCell(c: Config, kernel: Kernel, byHead: bool, x: Inputs, state: Option<seq<real>>, b: nat, h: nat,
                    output: array<real>, ghost before: seq<real>, ghost from: nat, ghost upTo: nat)
    requires x.Shaped() && kernel.Usable() && b < x.batch && h < x.heads && (byHead ==> state.Some?)
    requires state.Some? ==> |state.value| == Offset(x.Cells(), x.CellArea())
    requires upTo == Offset(b, x.heads) + h
    requires Written(output[..], before, Outputs(x, FlatState(x, state), c.Applied()), Offset(from, x.size),
                     Offset(upTo, x.size))
    modifies output
    ensures Written(output[..], before, Outputs(x, FlatState(x, state), c.Applied()), Offset(from, x.size),
                    Offset(upTo + 1, x.size))
  {
    var cell, outAt, nextAt := Place(x, b, h);
    ghost var s, o := FlatState(x, state), c.Applied();
    ghost var now := output[..];
    ghost var values := HeadOutputs(x.StateAt(s, upTo), x.HeadAt(upTo), x.ValuesAt(upTo), o);
    var matrix := CellMatrix(x, state, cell);
    if byHead {
      OutputHead(c, kernel, matrix.value, output, outAt, x.HeadAt(cell), x.ValuesAt(cell));
    } else {
      OutputRows(c, kernel, matrix, x.HeadAt(cell), x.ValuesAt(cell), output, outAt);
    }
    assert output[..] == Overwrite(now, Offset(upTo, x.size), values);
    OutputWritten(x, s, o, now, before, from, upTo, values);
  }

  /** One batch of outputs, head by head. */
  method OutputBatch(c: Config, kernel: Kernel, byHead: bool, x: Inputs, state: Option<seq<real>>, b: nat,
                     output: array<real>)
    requires x.Shaped() && kernel.Usable() && b < x.batch && (byHead ==> state.Some?)
    requires state.Some? ==> |state.value| == Offset(x.Cells(), x.CellArea())
    requires output.Length == Offset(x.Cells(), x.size)
    modifies output
    ensures Written(output[..], old(output[..]), Outputs(x, FlatState(x, state), c.Applied()),
                    Offset(Offset(b, x.heads), x.size), Offset(Offset(b + 1, x.heads), x.size))
  {
    ghost var before := output[..];
    CellsFit(x, b);
    ghost var from, upTo := Offset(b, x.heads), Offset(b, x.heads);
    for h := 0 to x.heads
      invariant upTo == from + h
      invariant Written(output[..], before, Outputs(x, FlatState(x, state), c.Applied()), Offset(from, x.size),
                        Offset(upTo, x.size))
    {
      OutputCell(c, kernel, byHead, x, state, b, h, output, before, from, upTo);
      upTo := upTo + 1;
    }
    assert upTo == Offset(b + 1, x.heads);
  }

  /** One more batch, taken from those that wait. */
  method OutputBatchOf(c: Config, kernel: Kernel, byHead: bool, x: Inputs, state: Option<seq<real>>, b: nat,
                       output: array<real>, ghost waiting: set<nat>, ghost target: seq<real>)
    requires x.Shaped() && kernel.Usable() && b < x.batch && (byHead ==> state.Some?)
    requires state.Some? ==> |state.value| == Offset(x.Cells(), x.CellArea())
    requires output.Length == Offset(x.Cells(), x.size) && target == Outputs(x, FlatState(x, state), c.Applied())
    requires forall i: nat :: i < x.batch && i !in waiting ==> SameRow(output[..], target, Offset(x.heads, x.size), i)
    modifies output
    ensures forall i: nat :: i < x.batch && i !in waiting - {b} ==>
        SameRow(output[..], target, Offset(x.heads, x.size), i)
  {
    ghost var before := output[..];
    OutputBatch(c, kernel, byHead, x, state, b, output);
    forall i: nat | i < x.batch && i !in waiting - {b} ensures SameRow(output[..], target, Offset(x.heads, x.size), i) {
      ChunkWritten(output[..], before, target, x.batch, x.heads, x.size, b, i);
    }
  }

  /** Several batches run as independent chunks, in any order; a single one runs in sequence. */
  method OutputStep(c: Config, kernel: Kernel, byHead: bool, x: Inputs, state: Option<seq<real>>, output: array<real>)
    requires x.Shaped() && kernel.Usable() && (byHead ==> state.Some?)
    requires state.Some? ==> |state.value| == Offset(x.Cells(), x.CellArea())
    requires output.Length == Offset(x.Cells(), x.size)
    modifies output
    ensures output[..] == Outputs(x, FlatState(x, state), c.Applied())
  {
    ghost var target := Outputs(x, FlatState(x, state), c.Applied());
    var waiting := Below(x.batch);
    if x.batch > 1 {
      while waiting != {}
        invariant forall i: nat :: i in waiting ==> i < x.batch
        invariant forall i: nat :: i < x.batch && i !in waiting ==>
            SameRow(output[..], target, Offset(x.heads, x.size), i)
        decreases |waiting|
      {
        var b: nat :| b in waiting;
        OutputBatchOf(c, kernel, byHead, x, state, b, output, waiting, target);
        waiting := waiting - {b};
      }
    } else {
      for b := 0 to x.batch
        invariant forall i: nat :: i in waiting <==> b <= i < x.batch
        invariant forall i: nat :: i < x.batch && i !in waiting ==>
            SameRow(output[..], target, Offset(x.heads, x.size), i)
      {
        OutputBatchOf(c, kernel, byHead, x, state, b, output, waiting, target);
        waiting := waiting - {b};
      }
    }
    ChunksComplete(output[..], target, x.batch, x.heads, x.size);
  }
}
