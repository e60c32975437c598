/** A linear layer over lane vectors: outputs in tiles of 12, 8, 4 and 1. */
module LinearProject {
  import opened Wrappers
  import opened Lists
  import opened RealVectors
  import opened WkvLanes

  datatype Layer = Layer(weights: seq<real>, bias: Option<seq<real>>, outDim: nat, inDim: nat) {
    predicate Shaped() {
      |weights| == Offset(outDim, inDim) && (bias.Some? ==> |bias.value| == outDim)
    }

    function WeightRow(o: nat): (r: seq<real>)
      requires Shaped() && o < outDim
      ensures |r| == inDim
    {
      RowFits(o, inDim, outDim);
      RowOf(weights, inDim, o)
    }

    function BiasAt(o: nat): real
      requires Shaped() && o < outDim
    {
      if bias.Some? then bias.value[o] else 0.0
    }

    /** The outputs of one input row. */
    function Apply(input: seq<real>): (r: seq<real>)
      requires Shaped() && |input| == inDim
      ensures |r| == outDim
    {
      seq(outDim, o requires 0 <= o < outDim => Dot(input, WeightRow(o)) + BiasAt(o))
    }
  }

  function Range(from: nat, n: nat): (r: seq<nat>)
    ensures |r| == n
  {
    seq(n, i requires 0 <= i => from + i)
  }

  /** The accumulators of one tile after the lane vectors before a position. */
  ghost predicate Accumulated(layer: Layer, input: seq<real>, base: nat, outputs: nat, accumulators: seq<seq<real>>,
                              lanes: nat, at: nat)
    requires layer.Shaped() && |input| == layer.inDim && base + outputs <= layer.outDim && at <= |input|
  {
    |accumulators| == outputs && forall i :: 0 <= i < outputs ==>
      |accumulators[i]| == lanes && ReduceSum(accumulators[i]) == SumTo(Times(input, layer.WeightRow(base + i)), at)
  }

  /** One lane vector of the input against every weight row of the tile. */
  method AccumulateTile(layer: Layer, input: seq<real>, base: nat, outputs: nat, accumulators: seq<seq<real>>,
                        lanes: nat, at: nat)
    returns (next: seq<seq<real>>)
    requires layer.Shaped() && |input| == layer.inDim && base + outputs <= layer.outDim && at + lanes <= |input|
    requires Accumulated(layer, input, base, outputs, accumulators, lanes, at)
    ensures Accumulated(layer, input, base, outputs, next, lanes, at + lanes)
  {
    var x := Lane(input, at, lanes);
    next := [];
    for i := 0 to outputs
      invariant Accumulated(layer, input, base, i, next, lanes, at + lanes)
    {
      var row := layer.WeightRow(base + i);
      var acc := Accumulate(x, Lane(row, at, lanes), accumulators[i], Times(input, row), at);
      next := next + [acc];
    }
  }

  method SumTail(xs: seq<real>, weights: seq<real>, at: nat, sum: real) returns (value: real)
    requires |xs| == |weights| && at <= |xs| && sum == SumTo(Times(xs, weights), at)
    ensures value == Dot(xs, weights)
  {
    value := sum;
    for j := at to |xs|
      invariant value == SumTo(Times(xs, weights), j)
    {
      value := xs[j] * weights[j] + value;
    }
  }

  method ProjectChunk(layer: Layer, input: seq<real>, base: nat, outputs: nat, output: array<real>, at: nat, lanes: nat)
    returns (ghost writes: seq<nat>)
    requires layer.Shaped() && |input| == layer.inDim && base + outputs <= layer.outDim
    requires lanes > 0 && at + layer.outDim <= output.Length
    modifies output
    ensures writes == Range(base, outputs)
    ensures output[..] == Overwrite(old(output[..]), at + base, layer.Apply(input)[base..base + outputs])
  {
    var accumulators := seq(outputs, _ => Splat(lanes, 0.0));
    NothingAccumulated(lanes);
    var from := 0;
    while from + lanes <= |input|
      invariant from <= |input| && Accumulated(layer, input, base, outputs, accumulators, lanes, from)
      invariant output[..] == old(output[..])
    {
      accumulators := AccumulateTile(layer, input, base, outputs, accumulators, lanes, from);
      from := from + lanes;
    }
    writes := WriteTile(layer, input, base, outputs, accumulators, lanes, from, output, at);
  }

  method WriteTile(layer: Layer, input: seq<real>, base: nat, outputs: nat, accumulators: seq<seq<real>>, lanes: nat,
                   from: nat, output: array<real>, at: nat)
    returns (ghost writes: seq<nat>)
    requires layer.Shaped() && |input| == layer.inDim && base + outputs <= layer.outDim && from <= |input|
    requires Accumulated(layer, input, base, outputs, accumulators, lanes, from) && at + layer.outDim <= output.Length
    modifies output
    ensures writes == Range(base, outputs)
    ensures output[..] == Overwrite(old(output[..]), at + base, layer.Apply(input)[base..base + outputs])
  {
    ghost var before, target := output[..], layer.Apply(input)[base..base + outputs];
    writes := [];
    for i := 0 to outputs
      invariant writes == Range(base, i)
      invariant output[..] == Overwrite(before, at + base, target[..i])
    {
      var value := SumTail(input, layer.WeightRow(base + i), from, ReduceSum(accumulators[i]));
      WriteNext(output, at + base, before, target, i, value + layer.BiasAt(base + i));
      writes := writes + [base + i];
    }
    assert target[..outputs] == target;
  }

  /** Full tiles of one width, as long as they fit. */
  method ProjectTiles(layer: Layer, input: seq<real>, width: nat, start: nat, output: array<real>, at: nat, lanes: nat,
                      ghost before: seq<real>, ghost soFar: seq<nat>)
    returns (base: nat, ghost writes: seq<nat>)
    requires layer.Shaped() && |input| == layer.inDim && start <= layer.outDim && width > 0
    requires lanes > 0 && at + layer.outDim <= output.Length == |before|
    requires output[..] == Overwrite(before, at, layer.Apply(input)[..start]) && soFar == Range(0, start)
    modifies output
    ensures start <= base <= layer.outDim < base + width
    ensures output[..] == Overwrite(before, at, layer.Apply(input)[..base]) && writes == Range(0, base)
  {
    ghost var target := layer.Apply(input);
    base, writes := start, soFar;
    while base + width <= layer.outDim
      invariant start <= base <= layer.outDim && writes == Range(0, base)
      invariant output[..] == Overwrite(before, at, target[..base])
    {
      ghost var tile := ProjectChunk(layer, input, base, width, output, at, lanes);
      ExtendWrite(before, at, target, base, width);
      writes := writes + tile;
      base := base + width;
    }
  }

  /** Tiles of 12, 8 and 4, then one dot product for each output that remains. */
  method ProjectRow(layer: Layer, input: seq<real>, output: array<real>, at: nat, lanes: nat)
    returns (ghost writes: seq<nat>)
    requires layer.Shaped() && |input| == layer.inDim && lanes > 0 && at + layer.outDim <= output.Length
    modifies output
    ensures output[..] == Overwrite(old(output[..]), at, layer.Apply(input))
    ensures writes == Range(0, layer.outDim)
  {
    ghost var before := output[..];
    assert output[..] == Overwrite(before, at, layer.Apply(input)[..0]);
    var base;
    base, writes := ProjectTiles(layer, input, 12, 0, output, at, lanes, before, []);
    base, writes := ProjectTiles(layer, input, 8, base, output, at, lanes, before, writes);
    base, writes := ProjectTiles(layer, input, 4, base, output, at, lanes, before, writes);
    writes := ProjectRest(layer, input, base, output, at, lanes, before, writes);
  }

  /** One dot product for each output from `start` on. */
  method ProjectRest(layer: Layer, input: seq<real>, start: nat, output: array<real>, at: nat, lanes: nat,
                     ghost before: seq<real>, ghost soFar: seq<nat>)
    returns (ghost writes: seq<nat>)
    requires layer.Shaped() && |input| == layer.inDim && start <= layer.outDim
    requires lanes > 0 && at + layer.outDim <= output.Length == |before|
    requires output[..] == Overwrite(before, at, layer.Apply(input)[..start]) && soFar == Range(0, start)
    modifies output
    ensures output[..] == Overwrite(before, at, layer.Apply(input)) && writes == Range(0, layer.outDim)
  {
    ghost var target := layer.Apply(input);
    var base := start;
    writes := soFar;
    while base < layer.outDim
      invariant base <= layer.outDim && writes == Range(0, base)
      invariant output[..] == Overwrite(before, at, target[..base])
    {
      var value := LinearDot(input, layer.WeightRow(base), lanes);
      WriteNext(output, at, before, target, base, value + layer.BiasAt(base));
      writes := writes + [base];
      base := base + 1;
    }
    assert target[..layer.outDim] == target;
  }

  // ----- A batch of rows -----

  /** The outputs of the first rows, one after the other. */
  function Projected(layer: Layer, input: seq<real>, rows: nat): (r: seq<real>)
    requires layer.Shaped() && Offset(rows, layer.inDim) <= |input|
    ensures |r| == Offset(rows, layer.outDim)
  {
    if rows == 0 then []
    else
      Projected(layer, input, rows - 1) + layer.Apply(RowOf(input, layer.inDim, rows - 1))
  }

  /** Every output of every row is its dot product with its weight row, plus its bias. */
  lemma {:induction false} ProjectedAt(layer: Layer, input: seq<real>, rows: nat, row: nat, o: nat)
    requires layer.Shaped() && Offset(rows, layer.inDim) <= |input| && row < rows && o < layer.outDim
    ensures row * layer.outDim + o < |Projected(layer, input, rows)|
        && Offset(row, layer.inDim) + layer.inDim <= |input|
    ensures Projected(layer, input, rows)[row * layer.outDim + o]
         == Dot(RowOf(input, layer.inDim, row), layer.WeightRow(o)) + layer.BiasAt(o)
  {
    RowFits(row, layer.inDim, rows);
    RowFits(row, layer.outDim, rows);
    OffsetIsProduct(row, layer.outDim);
    if row < rows - 1 {
      ProjectedAt(layer, input, rows - 1, row, o);
    }
  }

  /** An output: the products of an input row and a weight row, wherever those start, and the bias if there is one. */
  ghost predicate OutputProjected(layer: Layer, input: seq<real>, output: seq<real>, from: nat, weight: nat, at: nat,
                                  o: nat)
    requires layer.Shaped() && o < layer.outDim
  {
    && from + layer.inDim <= |input| && weight + layer.inDim <= |layer.weights| && at < |output|
    && output[at] == FlatSum(input, from, layer.weights, weight, layer.inDim)
         + (if layer.bias == None then 0.0 else layer.bias.value[o])
  }

  /** Input rows, weight rows and output rows all stand back to back. */
  ghost predicate OutputsProjected(layer: Layer, input: seq<real>, rows: nat, output: seq<real>)
    requires layer.Shaped()
  {
    forall row: nat, o: nat :: row < rows && o < layer.outDim ==>
      OutputProjected(layer, input, output, InputStart(layer, row), WeightStart(layer, o), OutputPlace(layer, row, o),
                      o)
  }

  function InputStart(layer: Layer, row: nat): nat {
    row * layer.inDim
  }

  function WeightStart(layer: Layer, o: nat): nat {
    o * layer.inDim
  }

  function OutputPlace(layer: Layer, row: nat, o: nat): nat {
    row * layer.outDim + o
  }

  lemma OutputIsFlat(layer: Layer, input: seq<real>, output: seq<real>, row: nat, o: nat, from: nat, weight: nat,
                     at: nat)
    requires layer.Shaped() && o < layer.outDim && at < |output|
    requires from == Offset(row, layer.inDim) && from + layer.inDim <= |input| && weight == Offset(o, layer.inDim)
    requires output[at] == Dot(RowOf(input, layer.inDim, row), layer.WeightRow(o)) + layer.BiasAt(o)
    ensures OutputProjected(layer, input, output, from, weight, at, o)
  {
    RowFits(o, layer.inDim, layer.outDim);
    DotOfSlices(input, from, layer.weights, weight, layer.inDim);
  }

  lemma OutputAtPlace(layer: Layer, input: seq<real>, rows: nat, row: nat, o: nat)
    requires layer.Shaped() && Offset(rows, layer.inDim) <= |input| && row < rows && o < layer.outDim
    ensures OutputProjected(layer, input, Projected(layer, input, rows), InputStart(layer, row), WeightStart(layer, o),
                            OutputPlace(layer, row, o), o)
  {
    ProjectedAt(layer, input, rows, row, o);
    OffsetIsProduct(row, layer.inDim);
    OffsetIsProduct(o, layer.inDim);
    OutputIsFlat(layer, input, Projected(layer, input, rows), row, o, InputStart(layer, row), WeightStart(layer, o),
                 OutputPlace(layer, row, o));
  }

  /** Every output of every row, at the flat indices of the three buffers. */
  lemma ProjectedIsFlat(layer: Layer, input: seq<real>, rows: nat)
    requires layer.Shaped() && Offset(rows, layer.inDim) <= |input|
    ensures OutputsProjected(layer, input, rows, Projected(layer, input, rows))
  {
    forall row: nat, o: nat | row < rows && o < layer.outDim
      ensures OutputProjected(layer, input, Projected(layer, input, rows), InputStart(layer, row),
                              WeightStart(layer, o), OutputPlace(layer, row, o), o)
    {
      OutputAtPlace(layer, input, rows, row, o);
    }
  }

  /** One row of the batch at its place, computed from products as the loop does. */
  method ProjectInto(layer: Layer, input: seq<real>, row: nat, output: array<real>, lanes: nat, ghost before: seq<real>)
    requires layer.Shaped() && lanes > 0 && |before| == output.Length
    requires Offset(row, layer.inDim) + layer.inDim <= |input|
        && Offset(row, layer.outDim) + layer.outDim <= output.Length
    requires output[..] == Overwrite(before, 0, Projected(layer, input, row))
    modifies output
    ensures output[..] == Overwrite(before, 0, Projected(layer, input, row + 1))
  {
    var from, at := row * layer.inDim, row * layer.outDim;
    assert from == Offset(row, layer.inDim) && at == Offset(row, layer.outDim) by {
      OffsetIsProduct(row, layer.inDim);
      OffsetIsProduct(row, layer.outDim);
    }
    var inputRow := input[from..from + layer.inDim];
    assert inputRow == RowOf(input, layer.inDim, row);
    ghost var writes := ProjectRow(layer, inputRow, output, at, lanes);
    AppendWrite(before, 0, Projected(layer, input, row), layer.Apply(inputRow));
  }

  method ProjectBatch(layer: Layer, input: seq<real>, rows: nat, output: array<real>, lanes: nat)
    requires layer.Shaped() && |input| == Offset(rows, layer.inDim) && output.Length == Offset(rows, layer.outDim)
        && lanes > 0
    modifies output
    ensures output[..] == Projected(layer, input, rows) && OutputsProjected(layer, input, rows, output[..])
  {
    ProjectedIsFlat(layer, input, rows);
    ghost var before := output[..];
    for row := 0 to rows
      invariant Offset(row, layer.inDim) <= |input| && Offset(row, layer.outDim) <= output.Length
      invariant output[..] == Overwrite(before, 0, Projected(layer, input, row))
    {
      RowFits(row, layer.inDim, rows);
      RowFits(row, layer.outDim, rows);
      ProjectInto(layer, input, row, output, lanes, before);
    }
  }
}
