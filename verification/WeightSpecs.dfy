/** Building the table of expected tensors, and checking a loaded file against it. */
module WeightSpecs {
  import opened Wrappers
  import opened Lists
  import opened TensorNames
  import opened ModelSchema

  type Specs = map<string, Meta>

  function AddAll(specs: Specs, entries: seq<Entry>): Specs {
    if entries == [] then specs
    else
      var last := entries[|entries| - 1];
      AddAll(specs, entries[..|entries| - 1])[last.Name() := Meta(last.shape, F32)]
  }

  lemma {:induction false} AddAllConcat(specs: Specs, a: seq<Entry>, b: seq<Entry>)
    ensures AddAll(specs, a + b) == AddAll(AddAll(specs, a), b)
  {
    if b == [] {
      assert a + b == a;
    } else {
      assert (a + b)[..|a + b| - 1] == a + b[..|b| - 1];
      AddAllConcat(specs, a, b[..|b| - 1]);
    }
  }

  lemma DistinctFront(entries: seq<Entry>)
    requires entries != [] && Distinct(Names(entries))
    ensures Distinct(Names(entries[..|entries| - 1]))
        && entries[|entries| - 1].Name() !in Names(entries[..|entries| - 1])
    ensures Names(entries) == Names(entries[..|entries| - 1]) + [entries[|entries| - 1].Name()]
  {
    var front := entries[..|entries| - 1];
    assert forall i :: 0 <= i < |front| ==>
        Names(front)[i] == Names(entries)[i] && Names(entries)[i] != Names(entries)[|front|];
  }

  /** With distinct names the table has one row for each entry. */
  lemma {:induction false} TableSize(entries: seq<Entry>)
    requires Distinct(Names(entries))
    ensures |AddAll(map[], entries)| == |entries|
    ensures AddAll(map[], entries).Keys == Members(Names(entries))
  {
    if entries != [] {
      DistinctFront(entries);
      TableSize(entries[..|entries| - 1]);
    }
  }

  /** With distinct names no row overwrites another. */
  lemma {:induction false} TableAt(entries: seq<Entry>, i: nat)
    requires Distinct(Names(entries)) && i < |entries|
    ensures entries[i].Name() in AddAll(map[], entries)
    ensures AddAll(map[], entries)[entries[i].Name()] == Meta(entries[i].shape, F32)
  {
    if i < |entries| - 1 {
      DistinctFront(entries);
      TableAt(entries[..|entries| - 1], i);
      assert entries[i].Name() == Names(entries[..|entries| - 1])[i];
    }
  }

  /** The table as it is filled; `start` and `added` say from what and with which entries. */
  class SpecTable {
    var specs: Specs

    constructor ()
      ensures specs == map[]
    {
      specs := map[];
    }

    method AddParam(path: Path, shape: seq<nat>, ghost start: Specs, ghost added: seq<Entry>)
      requires specs == AddAll(start, added)
      modifies this
      ensures specs == AddAll(start, added + [Entry(path, shape)])
    {
      specs := specs[Render(path) := Meta(shape, F32)];
      AddAllConcat(start, added, [Entry(path, shape)]);
    }

    method AddLinear(prefix: Path, outDim: nat, inDim: nat, bias: bool, ghost start: Specs, ghost added: seq<Entry>)
      requires specs == AddAll(start, added)
      modifies this
      ensures specs == AddAll(start, added + LinearEntries(prefix, outDim, inDim, bias))
    {
      AddParam(Dot(prefix, Weight), [outDim, inDim], start, added);
      if bias {
        AddParam(Dot(prefix, Bias), [outDim], start, added + [Entry(Dot(prefix, Weight), [outDim, inDim])]);
      }
      assert added + LinearEntries(prefix, outDim, inDim, bias)
          == added + [Entry(Dot(prefix, Weight), [outDim, inDim])]
              + (if bias then [Entry(Dot(prefix, Bias), [outDim])] else []);
    }

    method AddLayerNorm(prefix: Path, dim: nat, ghost start: Specs, ghost added: seq<Entry>)
      requires specs == AddAll(start, added)
      modifies this
      ensures specs == AddAll(start, added + LayerNormEntries(prefix, dim))
    {
      AddParam(Dot(prefix, Weight), [dim], start, added);
      AddParam(Dot(prefix, Bias), [dim], start, added + [Entry(Dot(prefix, Weight), [dim])]);
      assert added + LayerNormEntries(prefix, dim)
          == added + [Entry(Dot(prefix, Weight), [dim])] + [Entry(Dot(prefix, Bias), [dim])];
    }

    method AddLoraSimple(prefix: Path, dLora: nat, ghost start: Specs, ghost added: seq<Entry>)
      requires specs == AddAll(start, added)
      modifies this
      ensures specs == AddAll(start, added + LoraEntries(prefix, dLora))
    {
      ghost var first := LinearEntries(Dot(prefix, A), dLora, D_MODEL, false);
      AddLinear(Dot(prefix, A), dLora, D_MODEL, false, start, added);
      AddLinear(Dot(prefix, BAndLamb), D_MODEL, dLora, true, start, added + first);
      assert added + LoraEntries(prefix, dLora)
          == added + first + LinearEntries(Dot(prefix, BAndLamb), D_MODEL, dLora, true);
    }

    method AddWide(time: Path)
      modifies this
      ensures specs == AddAll(old(specs), WideEntries(time))
    {
      ghost var start := specs;
      ghost var e := LayerNormEntries(Dot(time, LayerNorm), D_MODEL);
      assert [] + e == e;
      AddLayerNorm(Dot(time, LayerNorm), D_MODEL, start, []);
      AddParam(Dot(time, RkvdagLerp), [8, 1, 1, D_MODEL], start, e);
      AddParam(Dot(time, Bonus), [1, 1, N_HEADS, HEAD_SIZE], start,
               e + [Entry(Dot(time, RkvdagLerp), [8, 1, 1, D_MODEL])]);
      assert e + ParamEntries(time)
          == e + [Entry(Dot(time, RkvdagLerp), [8, 1, 1, D_MODEL])]
              + [Entry(Dot(time, Bonus), [1, 1, N_HEADS, HEAD_SIZE])];
      e := e + ParamEntries(time);
      AddLinear(Dot(time, Wr), D_MODEL, D_MODEL, false, start, e);
      e := e + LinearEntries(Dot(time, Wr), D_MODEL, D_MODEL, false);
      AddLinear(Dot(time, Wk), D_MODEL, D_MODEL, false, start, e);
      e := e + LinearEntries(Dot(time, Wk), D_MODEL, D_MODEL, false);
      AddLinear(Dot(time, Wv), D_MODEL, D_MODEL, false, start, e);
      e := e + LinearEntries(Dot(time, Wv), D_MODEL, D_MODEL, false);
      AddLinear(Dot(time, Wo), D_MODEL, D_MODEL, false, start, e);
      e := e + LinearEntries(Dot(time, Wo), D_MODEL, D_MODEL, false);
      AddLinear(Dot(time, KScaleLinear), N_HEADS, D_MODEL, true, start, e);
      e := e + LinearEntries(Dot(time, KScaleLinear), N_HEADS, D_MODEL, true);
      AddLinear(Dot(time, VScaleLinear), N_HEADS, D_MODEL, true, start, e);
    }

    method AddLowRank(time: Path)
      modifies this
      ensures specs == AddAll(old(specs), LowRankEntries(time))
    {
      ghost var start := specs;
      ghost var e := LoraEntries(Dot(time, VLoraSimple), 8);
      assert [] + e == e;
      AddLoraSimple(Dot(time, VLoraSimple), 8, start, []);
      AddLoraSimple(Dot(time, ALoraSimple), 16, start, e);
      e := e + LoraEntries(Dot(time, ALoraSimple), 16);
      AddLoraSimple(Dot(time, DLoraMlp), 16, start, e);
      e := e + LoraEntries(Dot(time, DLoraMlp), 16);
      AddLinear(Dot(time, LoraAg), 16, D_MODEL, false, start, e);
      e := e + LinearEntries(Dot(time, LoraAg), 16, D_MODEL, false);
      AddLinear(Dot(time, LoraBg), D_MODEL, 16, false, start, e);
      e := e + LinearEntries(Dot(time, LoraBg), D_MODEL, 16, false);
      AddLayerNorm(Dot(time, OutGroupNorm), D_MODEL, start, e);
    }

    method AddChannel(channel: Path, channelDim: nat)
      modifies this
      ensures specs == AddAll(old(specs), ChannelEntries(channel, channelDim))
    {
      ghost var start := specs;
      ghost var e := LayerNormEntries(Dot(channel, LayerNorm), D_MODEL);
      assert [] + e == e;
      AddLayerNorm(Dot(channel, LayerNorm), D_MODEL, start, []);
      AddParam(Dot(channel, LerpK), [1, 1, D_MODEL], start, e);
      e := e + [Entry(Dot(channel, LerpK), [1, 1, D_MODEL])];
      AddLinear(Dot(channel, Wk), channelDim, D_MODEL, false, start, e);
      e := e + LinearEntries(Dot(channel, Wk), channelDim, D_MODEL, false);
      AddLinear(Dot(channel, Wv), D_MODEL, channelDim, false, start, e);
    }

    method AddRwkvBlock(m: nat, l: nat, config: ModuleConfig)
      requires config.factorDen > 0
      modifies this
      ensures specs == AddAll(old(specs), BlockEntries(m, l, config))
    {
      ghost var start := specs;
      var time, channel := Dot(BlockPrefix(m, l), TimeMixer), Dot(BlockPrefix(m, l), ChannelMixer);
      AddWide(time);
      AddLowRank(time);
      AddAllConcat(start, WideEntries(time), LowRankEntries(time));
      AddChannel(channel, config.ChannelDim());
      AddAllConcat(start, TimeEntries(time), ChannelEntries(channel, config.ChannelDim()));
    }

    method AddModule(m: nat, config: ModuleConfig)
      requires config.factorDen > 0
      modifies this
      ensures specs == AddAll(old(specs), LayerEntries(m, config, config.layers))
    {
      ghost var start := specs;
      for l := 0 to config.layers
        invariant specs == AddAll(start, LayerEntries(m, config, l))
      {
        AddRwkvBlock(m, l, config);
        AddAllConcat(start, LayerEntries(m, config, l), BlockEntries(m, l, config));
      }
    }

    method AddFront()
      modifies this
      ensures specs == AddAll(old(specs), FrontEntries())
    {
      ghost var start := specs;
      ghost var e := LinearEntries([Text(Features2card), Number(0)], FEATURES_FC_DIM, CARD_FEATURES_DIM, true);
      assert [] + e == e;
      AddLinear([Text(Features2card), Number(0)], FEATURES_FC_DIM, CARD_FEATURES_DIM, true, start, []);
      AddLayerNorm([Text(Features2card), Number(2)], FEATURES_FC_DIM, start, e);
      e := e + LayerNormEntries([Text(Features2card), Number(2)], FEATURES_FC_DIM);
      AddLinear([Text(Features2card), Number(3)], D_MODEL, FEATURES_FC_DIM, true, start, e);
    }

    method AddTail()
      modifies this
      ensures specs == AddAll(old(specs), TailEntries())
    {
      ghost var start := specs;
      ghost var e := LayerNormEntries([Text(PreheadNorm)], D_MODEL);
      assert [] + e == e;
      AddLayerNorm([Text(PreheadNorm)], D_MODEL, start, []);
      AddLinear([Text(HeadAheadLogits), Number(0)], HEAD_DIM, D_MODEL, true, start, e);
      e := e + LinearEntries([Text(HeadAheadLogits), Number(0)], HEAD_DIM, D_MODEL, true);
      AddLinear([Text(HeadW), Number(0)], D_MODEL, D_MODEL, true, start, e);
      e := e + LinearEntries([Text(HeadW), Number(0)], D_MODEL, D_MODEL, true);
      AddLayerNorm([Text(HeadW), Number(2)], D_MODEL, start, e);
      e := e + LayerNormEntries([Text(HeadW), Number(2)], D_MODEL);
      AddLinear([Text(HeadW), Number(4)], HEAD_DIM, D_MODEL, true, start, e);
      e := e + LinearEntries([Text(HeadW), Number(4)], HEAD_DIM, D_MODEL, true);
      AddLinear([Text(HeadP), Number(0)], HEAD_DIM, D_MODEL, true, start, e);
      e := e + LinearEntries([Text(HeadP), Number(0)], HEAD_DIM, D_MODEL, true);
      AddLinear([Text(AheadLinear)], NUM_POINTS, HEAD_DIM, true, start, e);
      e := e + LinearEntries([Text(AheadLinear)], NUM_POINTS, HEAD_DIM, true);
      AddLinear([Text(WLinear)], NUM_CURVES, HEAD_DIM, true, start, e);
      e := e + LinearEntries([Text(WLinear)], NUM_CURVES, HEAD_DIM, true);
      AddLinear([Text(PLinear)], 4, HEAD_DIM, true, start, e);
    }
  }

  lemma ModulesStep(front: seq<Entry>, configs: seq<ModuleConfig>, m: nat)
    requires Configured(configs) && m < |configs|
    ensures AddAll(AddAll(map[], front + ModuleEntries(configs[..m])), LayerEntries(m, configs[m], configs[m].layers))
         == AddAll(map[], front + ModuleEntries(configs[..m + 1]))
  {
    var before, last := ModuleEntries(configs[..m]), LayerEntries(m, configs[m], configs[m].layers);
    NextModuleEntries(configs, m);
    assert front + (before + last) == (front + before) + last;
    AddAllConcat(map[], front + before, last);
  }

  lemma NextModuleEntries(configs: seq<ModuleConfig>, m: nat)
    requires Configured(configs) && m < |configs|
    ensures ModuleEntries(configs[..m + 1])
        == ModuleEntries(configs[..m]) + LayerEntries(m, configs[m], configs[m].layers)
  {
    assert configs[..m + 1][..m] == configs[..m];
  }

  /** The expected table has exactly one row for each tensor of the schema. */
  method ExpectedWeightSpecs(configs: seq<ModuleConfig>) returns (specs: Specs)
    requires Configured(configs)
    ensures |specs| == 24 + 30 * TotalLayers(configs)
    ensures specs.Keys == SchemaNames(configs)
    ensures forall i :: 0 <= i < |Schema(configs)| ==>
      Schema(configs)[i].Name() in specs && specs[Schema(configs)[i].Name()] == Meta(Schema(configs)[i].shape, F32)
  {
    var table := new SpecTable();
    table.AddFront();
    ghost var front := FrontEntries();
    assert front + ModuleEntries(configs[..0]) == front;
    for m := 0 to |configs|
      invariant Configured(configs[..m])
      invariant table.specs == AddAll(map[], front + ModuleEntries(configs[..m]))
    {
      table.AddModule(m, configs[m]);
      ModulesStep(front, configs, m);
    }
    assert configs[..|configs|] == configs;
    table.AddTail();
    AddAllConcat(map[], front + ModuleEntries(configs), TailEntries());
    specs := table.specs;
    NamesDistinct(configs);
    TableSize(Schema(configs));
    forall i | 0 <= i < |Schema(configs)|
      ensures Schema(configs)[i].Name() in specs
          && specs[Schema(configs)[i].Name()] == Meta(Schema(configs)[i].shape, F32)
    {
      TableAt(Schema(configs), i);
    }
  }

  // ----- Checking loaded tensors -----

  /** What differs; the program lists these in key order. */
  datatype Report = Report(missing: set<string>, unexpected: set<string>, wrongShapes: set<string>,
                           wrongDtypes: set<string>) {
    predicate Ok() {
      missing == {} && unexpected == {} && wrongShapes == {} && wrongDtypes == {}
    }
  }

  method ValidateLoadedMeta(expected: Specs, loaded: Specs) returns (report: Report)
    ensures report.missing == expected.Keys - loaded.Keys && report.unexpected == loaded.Keys - expected.Keys
    ensures forall key :: key in report.wrongShapes <==>
        key in expected && key in loaded && loaded[key].shape != expected[key].shape
    ensures forall key :: key in report.wrongDtypes <==>
        key in expected && key in loaded && loaded[key].dtype != expected[key].dtype
    ensures report.Ok() <==> loaded == expected
  {
    var shared := expected.Keys * loaded.Keys;
    var wrongShapes, wrongDtypes := {}, {};
    var remaining := shared;
    while remaining != {}
      invariant remaining <= shared
      invariant forall key :: key in wrongShapes <==>
          key in shared - remaining && loaded[key].shape != expected[key].shape
      invariant forall key :: key in wrongDtypes <==>
          key in shared - remaining && loaded[key].dtype != expected[key].dtype
      decreases |remaining|
    {
      var key := AnyOf(remaining);
      if loaded[key].shape != expected[key].shape {
        wrongShapes := wrongShapes + {key};
      }
      if loaded[key].dtype != expected[key].dtype {
        wrongDtypes := wrongDtypes + {key};
      }
      remaining := remaining - {key};
    }
    report := Report(expected.Keys - loaded.Keys, loaded.Keys - expected.Keys, wrongShapes, wrongDtypes);
    if report.Ok() {
      SameKeys(expected, loaded);
      forall key | key in expected ensures loaded[key] == expected[key] {
        assert key !in wrongShapes && key !in wrongDtypes;
      }
    }
  }

  lemma SameKeys(expected: Specs, loaded: Specs)
    requires expected.Keys - loaded.Keys == {} && loaded.Keys - expected.Keys == {}
    ensures expected.Keys == loaded.Keys
  {
    forall key ensures key in expected <==> key in loaded {
      assert key !in expected.Keys - loaded.Keys && key !in loaded.Keys - expected.Keys;
    }
  }

  // ----- Counting parameters -----

  function Product(shape: seq<nat>): nat {
    if shape == [] then 1 else shape[0] * Product(shape[1..])
  }

  function Parameters(entries: seq<Entry>): nat {
    if entries == [] then 0 else Parameters(entries[..|entries| - 1]) + Product(entries[|entries| - 1].shape)
  }

  lemma {:induction false} ParametersConcat(a: seq<Entry>, b: seq<Entry>)
    ensures Parameters(a + b) == Parameters(a) + Parameters(b)
  {
    if b == [] {
      assert a + b == a;
    } else {
      assert (a + b)[..|a + b| - 1] == a + b[..|b| - 1];
      ParametersConcat(a, b[..|b| - 1]);
    }
  }

  lemma LinearParameters(prefix: Path, outDim: nat, inDim: nat, bias: bool)
    ensures Parameters(LinearEntries(prefix, outDim, inDim, bias)) == outDim * inDim + (if bias then outDim else 0)
  {
    FourDims(1, 1, outDim, inDim);
    assert Product([outDim]) == outDim;
    ParametersConcat([Entry(Dot(prefix, Weight), [outDim, inDim])],
                     if bias then [Entry(Dot(prefix, Bias), [outDim])] else []);
  }

  lemma NormParameters(prefix: Path, dim: nat)
    ensures Parameters(LayerNormEntries(prefix, dim)) == 2 * dim
  {
    assert Product([dim]) == dim;
    assert LayerNormEntries(prefix, dim) == [Entry(Dot(prefix, Weight), [dim])] + [Entry(Dot(prefix, Bias), [dim])];
    ParametersConcat([Entry(Dot(prefix, Weight), [dim])], [Entry(Dot(prefix, Bias), [dim])]);
  }

  lemma LoraParameters(prefix: Path, dLora: nat)
    ensures Parameters(LoraEntries(prefix, dLora)) == 256 * dLora + 128
  {
    LinearParameters(Dot(prefix, A), dLora, D_MODEL, false);
    LinearParameters(Dot(prefix, BAndLamb), D_MODEL, dLora, true);
    ParametersConcat(LinearEntries(Dot(prefix, A), dLora, D_MODEL, false),
                     LinearEntries(Dot(prefix, BAndLamb), D_MODEL, dLora, true));
  }

  lemma AddLinearParameters(e: seq<Entry>, prefix: Path, outDim: nat, inDim: nat, bias: bool)
    ensures Parameters(e + LinearEntries(prefix, outDim, inDim, bias))
        == Parameters(e) + outDim * inDim + (if bias then outDim else 0)
  {
    LinearParameters(prefix, outDim, inDim, bias);
    ParametersConcat(e, LinearEntries(prefix, outDim, inDim, bias));
  }

  lemma AddNormParameters(e: seq<Entry>, prefix: Path, dim: nat)
    ensures Parameters(e + LayerNormEntries(prefix, dim)) == Parameters(e) + 2 * dim
  {
    NormParameters(prefix, dim);
    ParametersConcat(e, LayerNormEntries(prefix, dim));
  }

  lemma FourDims(a: nat, b: nat, c: nat, d: nat)
    ensures Product([c, d]) == c * d && Product([b, c, d]) == b * (c * d) && Product([a, b, c, d]) == a * (b * (c * d))
  {
    assert [a, b, c, d][1..] == [b, c, d] && [b, c, d][1..] == [c, d] && [c, d][1..] == [d] && [d][1..] == [];
    assert Product([d]) == d;
    assert Product([c, d]) == c * d;
  }

  lemma ParamParameters(time: Path)
    ensures Parameters(ParamEntries(time)) == 1152
  {
    FourDims(8, 1, 1, D_MODEL);
    FourDims(1, 1, N_HEADS, HEAD_SIZE);
    var lerp, bonus := [Entry(Dot(time, RkvdagLerp), [8, 1, 1, D_MODEL])],
        [Entry(Dot(time, Bonus), [1, 1, N_HEADS, HEAD_SIZE])];
    assert ParamEntries(time) == lerp + bonus;
    ParametersConcat(lerp, bonus);
  }

  lemma WideParameters(time: Path)
    ensures Parameters(WideEntries(time)) == 67976
  {
    var e: seq<Entry> := LayerNormEntries(Dot(time, LayerNorm), D_MODEL);
    NormParameters(Dot(time, LayerNorm), D_MODEL);
    ParamParameters(time);
    ParametersConcat(e, ParamEntries(time));
    e := e + ParamEntries(time);
    AddLinearParameters(e, Dot(time, Wr), D_MODEL, D_MODEL, false);
    e := e + LinearEntries(Dot(time, Wr), D_MODEL, D_MODEL, false);
    AddLinearParameters(e, Dot(time, Wk), D_MODEL, D_MODEL, false);
    e := e + LinearEntries(Dot(time, Wk), D_MODEL, D_MODEL, false);
    AddLinearParameters(e, Dot(time, Wv), D_MODEL, D_MODEL, false);
    e := e + LinearEntries(Dot(time, Wv), D_MODEL, D_MODEL, false);
    AddLinearParameters(e, Dot(time, Wo), D_MODEL, D_MODEL, false);
    e := e + LinearEntries(Dot(time, Wo), D_MODEL, D_MODEL, false);
    AddLinearParameters(e, Dot(time, KScaleLinear), N_HEADS, D_MODEL, true);
    e := e + LinearEntries(Dot(time, KScaleLinear), N_HEADS, D_MODEL, true);
    AddLinearParameters(e, Dot(time, VScaleLinear), N_HEADS, D_MODEL, true);
  }

  lemma LowRankParameters(time: Path)
    ensures Parameters(LowRankEntries(time)) == 14976
  {
    var e: seq<Entry> := LoraEntries(Dot(time, VLoraSimple), 8);
    LoraParameters(Dot(time, VLoraSimple), 8);
    LoraParameters(Dot(time, ALoraSimple), 16);
    ParametersConcat(e, LoraEntries(Dot(time, ALoraSimple), 16));
    e := e + LoraEntries(Dot(time, ALoraSimple), 16);
    LoraParameters(Dot(time, DLoraMlp), 16);
    ParametersConcat(e, LoraEntries(Dot(time, DLoraMlp), 16));
    e := e + LoraEntries(Dot(time, DLoraMlp), 16);
    AddLinearParameters(e, Dot(time, LoraAg), 16, D_MODEL, false);
    e := e + LinearEntries(Dot(time, LoraAg), 16, D_MODEL, false);
    AddLinearParameters(e, Dot(time, LoraBg), D_MODEL, 16, false);
    e := e + LinearEntries(Dot(time, LoraBg), D_MODEL, 16, false);
    AddNormParameters(e, Dot(time, OutGroupNorm), D_MODEL);
  }

  lemma ChannelParameters(channel: Path, channelDim: nat)
    ensures Parameters(ChannelEntries(channel, channelDim)) == 384 + 256 * channelDim
  {
    var e: seq<Entry> := LayerNormEntries(Dot(channel, LayerNorm), D_MODEL);
    var lerp := [Entry(Dot(channel, LerpK), [1, 1, D_MODEL])];
    NormParameters(Dot(channel, LayerNorm), D_MODEL);
    FourDims(1, 1, 1, D_MODEL);
    assert lerp[..0] == [] && Parameters(lerp) == 128;
    ParametersConcat(e, lerp);
    e := e + lerp;
    AddLinearParameters(e, Dot(channel, Wk), channelDim, D_MODEL, false);
    e := e + LinearEntries(Dot(channel, Wk), channelDim, D_MODEL, false);
    AddLinearParameters(e, Dot(channel, Wv), D_MODEL, channelDim, false);
  }

  /** The parameters of one layer. */
  function BlockTotal(config: ModuleConfig): nat
    requires config.factorDen > 0
  {
    83336 + 256 * config.ChannelDim()
  }

  lemma BlockParameters(m: nat, l: nat, config: ModuleConfig)
    requires config.factorDen > 0
    ensures Parameters(BlockEntries(m, l, config)) == BlockTotal(config)
  {
    var time, channel := Dot(BlockPrefix(m, l), TimeMixer), Dot(BlockPrefix(m, l), ChannelMixer);
    WideParameters(time);
    LowRankParameters(time);
    ParametersConcat(WideEntries(time), LowRankEntries(time));
    ChannelParameters(channel, config.ChannelDim());
    ParametersConcat(TimeEntries(time), ChannelEntries(channel, config.ChannelDim()));
  }

  lemma {:induction false} LayersParameters(m: nat, config: ModuleConfig, layers: nat, each: nat)
    requires config.factorDen > 0 && each == BlockTotal(config)
    ensures Parameters(LayerEntries(m, config, layers)) == layers * each
  {
    if layers > 0 {
      LayersParameters(m, config, layers - 1, each);
      OneMore(layers, each);
      NextLayerParameters(m, config, layers, each);
    }
  }

  lemma NextLayerParameters(m: nat, config: ModuleConfig, layers: nat, each: nat)
    requires config.factorDen > 0 && layers > 0 && each == BlockTotal(config)
    ensures Parameters(LayerEntries(m, config, layers)) == Parameters(LayerEntries(m, config, layers - 1)) + each
  {
    BlockParameters(m, layers - 1, config);
    ParametersConcat(LayerEntries(m, config, layers - 1), BlockEntries(m, layers - 1, config));
  }

  /** The parameters of a list of modules, by the formula for one block. */
  function ModuleTotal(configs: seq<ModuleConfig>): nat
    requires Configured(configs)
  {
    if configs == [] then 0
    else
      var last := configs[|configs| - 1];
      ModuleTotal(configs[..|configs| - 1]) + last.layers * BlockTotal(last)
  }

  lemma {:induction false} ModulesParameters(configs: seq<ModuleConfig>)
    requires Configured(configs)
    ensures Parameters(ModuleEntries(configs)) == ModuleTotal(configs)
  {
    if configs != [] {
      var m := |configs| - 1;
      ModulesParameters(configs[..m]);
      LayersParameters(m, configs[m], configs[m].layers, BlockTotal(configs[m]));
      ParametersConcat(ModuleEntries(configs[..m]), LayerEntries(m, configs[m], configs[m].layers));
    }
  }

  lemma FrontParameters()
    ensures Parameters(FrontEntries()) == 114304
  {
    var e: seq<Entry> := LinearEntries([Text(Features2card), Number(0)], FEATURES_FC_DIM, CARD_FEATURES_DIM, true);
    LinearParameters([Text(Features2card), Number(0)], FEATURES_FC_DIM, CARD_FEATURES_DIM, true);
    AddNormParameters(e, [Text(Features2card), Number(2)], FEATURES_FC_DIM);
    e := e + LayerNormEntries([Text(Features2card), Number(2)], FEATURES_FC_DIM);
    AddLinearParameters(e, [Text(Features2card), Number(3)], D_MODEL, FEATURES_FC_DIM, true);
  }

  lemma TailParameters()
    ensures Parameters(TailEntries()) == 348548
  {
    var e: seq<Entry> := LayerNormEntries([Text(PreheadNorm)], D_MODEL);
    NormParameters([Text(PreheadNorm)], D_MODEL);
    AddLinearParameters(e, [Text(HeadAheadLogits), Number(0)], HEAD_DIM, D_MODEL, true);
    e := e + LinearEntries([Text(HeadAheadLogits), Number(0)], HEAD_DIM, D_MODEL, true);
    AddLinearParameters(e, [Text(HeadW), Number(0)], D_MODEL, D_MODEL, true);
    e := e + LinearEntries([Text(HeadW), Number(0)], D_MODEL, D_MODEL, true);
    AddNormParameters(e, [Text(HeadW), Number(2)], D_MODEL);
    e := e + LayerNormEntries([Text(HeadW), Number(2)], D_MODEL);
    AddLinearParameters(e, [Text(HeadW), Number(4)], HEAD_DIM, D_MODEL, true);
    e := e + LinearEntries([Text(HeadW), Number(4)], HEAD_DIM, D_MODEL, true);
    AddLinearParameters(e, [Text(HeadP), Number(0)], HEAD_DIM, D_MODEL, true);
    e := e + LinearEntries([Text(HeadP), Number(0)], HEAD_DIM, D_MODEL, true);
    AddLinearParameters(e, [Text(AheadLinear)], NUM_POINTS, HEAD_DIM, true);
    e := e + LinearEntries([Text(AheadLinear)], NUM_POINTS, HEAD_DIM, true);
    AddLinearParameters(e, [Text(WLinear)], NUM_CURVES, HEAD_DIM, true);
    e := e + LinearEntries([Text(WLinear)], NUM_CURVES, HEAD_DIM, true);
    AddLinearParameters(e, [Text(PLinear)], 4, HEAD_DIM, true);
  }

  lemma TotalsStep(configs: seq<ModuleConfig>, k: nat)
    requires Configured(configs) && k < |configs|
    ensures TotalLayers(configs[..k + 1]) == TotalLayers(configs[..k]) + configs[k].layers
    ensures ModuleTotal(configs[..k + 1]) == ModuleTotal(configs[..k]) + configs[k].layers * BlockTotal(configs[k])
  {
    assert configs[..k + 1][..k] == configs[..k];
  }

  lemma ReleasedModules()
    ensures Configured(MODULE_CONFIGS) && TotalLayers(MODULE_CONFIGS) == 16 && ModuleTotal(MODULE_CONFIGS) == 2_300_032
  {
    var c := MODULE_CONFIGS;
    TotalsStep(c, 0);
    TotalsStep(c, 1);
    TotalsStep(c, 2);
    TotalsStep(c, 3);
    TotalsStep(c, 4);
    assert c[..5] == c;
  }

  /** The five modules of the released model have 504 tensors with the expected number of parameters. */
  lemma ReleasedModel()
    ensures Configured(MODULE_CONFIGS) && |Schema(MODULE_CONFIGS)| == 504
    ensures Parameters(Schema(MODULE_CONFIGS)) == EXPECTED_PARAMETER_COUNT
  {
    ReleasedModules();
    ReleasedSchema(MODULE_CONFIGS);
  }

  lemma ReleasedSchema(configs: seq<ModuleConfig>)
    requires Configured(configs) && TotalLayers(configs) == 16 && ModuleTotal(configs) == 2_300_032
    ensures |Schema(configs)| == 504 && Parameters(Schema(configs)) == EXPECTED_PARAMETER_COUNT
  {
    SchemaParameters(configs);
    ModulesParameters(configs);
  }

  lemma SchemaParameters(configs: seq<ModuleConfig>)
    requires Configured(configs)
    ensures Parameters(Schema(configs)) == 462_852 + Parameters(ModuleEntries(configs))
  {
    FrontParameters();
    TailParameters();
    ParametersConcat(FrontEntries(), ModuleEntries(configs));
    ParametersConcat(FrontEntries() + ModuleEntries(configs), TailEntries());
  }
}
