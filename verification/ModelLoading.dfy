/** The constructor and the schema agree: a model is built from a tensor map exactly when its names are the schema's. */
module ModelLoading {
  import opened Wrappers
  import opened Lists
  import opened TensorNames
  import opened ModelSchema
  import opened ModelWeights
  import opened WeightSpecs

  // ----- The names taken are the names of the schema, in the same order -----

  lemma LinearThenIs(prefix: Path, outDim: nat, inDim: nat, bias: bool, rest: seq<Path>)
    ensures LinearThen(prefix, bias, rest) == Paths(LinearEntries(prefix, outDim, inDim, bias)) + rest
  {
  }

  lemma NormThenIs(prefix: Path, dim: nat, rest: seq<Path>)
    ensures NormThen(prefix, rest) == Paths(LayerNormEntries(prefix, dim)) + rest
  {
  }

  /** Entries listed before a tail of names join the entries before them. */
  lemma Absorb(e: seq<Entry>, entries: seq<Entry>, rest: seq<Path>)
    ensures Paths(e) + (Paths(entries) + rest) == Paths(e + entries) + rest
  {
    PathsConcat(e, entries);
  }

  lemma AbsorbLinear(e: seq<Entry>, prefix: Path, outDim: nat, inDim: nat, bias: bool, rest: seq<Path>)
    ensures Paths(e) + LinearThen(prefix, bias, rest) == Paths(e + LinearEntries(prefix, outDim, inDim, bias)) + rest
  {
    LinearThenIs(prefix, outDim, inDim, bias, rest);
    Absorb(e, LinearEntries(prefix, outDim, inDim, bias), rest);
  }

  lemma AbsorbNorm(e: seq<Entry>, prefix: Path, dim: nat, rest: seq<Path>)
    ensures Paths(e) + NormThen(prefix, rest) == Paths(e + LayerNormEntries(prefix, dim)) + rest
  {
    NormThenIs(prefix, dim, rest);
    Absorb(e, LayerNormEntries(prefix, dim), rest);
  }

  lemma LoraThenIs(prefix: Path, dLora: nat, rest: seq<Path>)
    ensures LoraThen(prefix, rest) == Paths(LoraEntries(prefix, dLora)) + rest
  {
    LinearThenIs(Dot(prefix, A), dLora, D_MODEL, false, LinearThen(Dot(prefix, BAndLamb), true, rest));
    AbsorbLinear(LinearEntries(Dot(prefix, A), dLora, D_MODEL, false), Dot(prefix, BAndLamb), D_MODEL, dLora, true,
                 rest);
  }

  lemma AbsorbLora(e: seq<Entry>, prefix: Path, dLora: nat, rest: seq<Path>)
    ensures Paths(e) + LoraThen(prefix, rest) == Paths(e + LoraEntries(prefix, dLora)) + rest
  {
    LoraThenIs(prefix, dLora, rest);
    Absorb(e, LoraEntries(prefix, dLora), rest);
  }

  lemma LowRankThenIs(time: Path, rest: seq<Path>)
    ensures LowRankThen(time, rest) == Paths(LowRankEntries(time)) + rest
  {
    var afterB := NormThen(Dot(time, OutGroupNorm), rest);
    var afterA := LinearThen(Dot(time, LoraBg), false, afterB);
    var afterD := LinearThen(Dot(time, LoraAg), false, afterA);
    var afterALora := LoraThen(Dot(time, DLoraMlp), afterD);
    var e: seq<Entry> := LoraEntries(Dot(time, VLoraSimple), 8);
    LoraThenIs(Dot(time, VLoraSimple), 8, LoraThen(Dot(time, ALoraSimple), afterALora));
    AbsorbLora(e, Dot(time, ALoraSimple), 16, afterALora);
    e := e + LoraEntries(Dot(time, ALoraSimple), 16);
    AbsorbLora(e, Dot(time, DLoraMlp), 16, afterD);
    e := e + LoraEntries(Dot(time, DLoraMlp), 16);
    AbsorbLinear(e, Dot(time, LoraAg), 16, D_MODEL, false, afterA);
    e := e + LinearEntries(Dot(time, LoraAg), 16, D_MODEL, false);
    AbsorbLinear(e, Dot(time, LoraBg), D_MODEL, 16, false, afterB);
    e := e + LinearEntries(Dot(time, LoraBg), D_MODEL, 16, false);
    AbsorbNorm(e, Dot(time, OutGroupNorm), D_MODEL, rest);
  }

  lemma MixThenIs(time: Path, rest: seq<Path>)
    ensures MixThen(time, rest) == Paths(MixEntries(time)) + rest
  {
    var afterWr := LinearThen(Dot(time, Wk), false, rest);
    var afterBonus := LinearThen(Dot(time, Wr), false, afterWr);
    var params := [Dot(time, RkvdagLerp)] + ([Dot(time, Bonus)] + afterBonus);
    var e: seq<Entry> := LayerNormEntries(Dot(time, LayerNorm), D_MODEL);
    NormThenIs(Dot(time, LayerNorm), D_MODEL, params);
    assert params == Paths(ParamEntries(time)) + afterBonus;
    Absorb(e, ParamEntries(time), afterBonus);
    e := e + ParamEntries(time);
    AbsorbLinear(e, Dot(time, Wr), D_MODEL, D_MODEL, false, afterWr);
    e := e + LinearEntries(Dot(time, Wr), D_MODEL, D_MODEL, false);
    AbsorbLinear(e, Dot(time, Wk), D_MODEL, D_MODEL, false, rest);
  }

  lemma WideThenIs(time: Path, rest: seq<Path>)
    ensures MixThen(time, LinearThen(Dot(time, Wv), false, LinearThen(Dot(time, Wo), false,
              LinearThen(Dot(time, KScaleLinear), true, LinearThen(Dot(time, VScaleLinear), true, rest)))))
         == Paths(WideEntries(time)) + rest
  {
    var afterK := LinearThen(Dot(time, VScaleLinear), true, rest);
    var afterO := LinearThen(Dot(time, KScaleLinear), true, afterK);
    var afterV := LinearThen(Dot(time, Wo), false, afterO);
    var e: seq<Entry> := MixEntries(time);
    MixThenIs(time, LinearThen(Dot(time, Wv), false, afterV));
    AbsorbLinear(e, Dot(time, Wv), D_MODEL, D_MODEL, false, afterV);
    e := e + LinearEntries(Dot(time, Wv), D_MODEL, D_MODEL, false);
    AbsorbLinear(e, Dot(time, Wo), D_MODEL, D_MODEL, false, afterO);
    e := e + LinearEntries(Dot(time, Wo), D_MODEL, D_MODEL, false);
    AbsorbLinear(e, Dot(time, KScaleLinear), N_HEADS, D_MODEL, true, afterK);
    e := e + LinearEntries(Dot(time, KScaleLinear), N_HEADS, D_MODEL, true);
    AbsorbLinear(e, Dot(time, VScaleLinear), N_HEADS, D_MODEL, true, rest);
  }

  lemma TimeThenIs(time: Path, rest: seq<Path>)
    ensures TimeThen(time, rest) == Paths(TimeEntries(time)) + rest
  {
    WideThenIs(time, LowRankThen(time, rest));
    LowRankThenIs(time, rest);
    Absorb(WideEntries(time), LowRankEntries(time), rest);
  }

  lemma ChannelThenIs(channel: Path, channelDim: nat, rest: seq<Path>)
    ensures ChannelThen(channel, rest) == Paths(ChannelEntries(channel, channelDim)) + rest
  {
    var afterK := LinearThen(Dot(channel, Wv), false, rest);
    var afterLerp := LinearThen(Dot(channel, Wk), false, afterK);
    var lerp := [Entry(Dot(channel, LerpK), [1, 1, D_MODEL])];
    var e: seq<Entry> := LayerNormEntries(Dot(channel, LayerNorm), D_MODEL);
    NormThenIs(Dot(channel, LayerNorm), D_MODEL, [Dot(channel, LerpK)] + afterLerp);
    assert [Dot(channel, LerpK)] + afterLerp == Paths(lerp) + afterLerp;
    Absorb(e, lerp, afterLerp);
    AbsorbLinear(e + lerp, Dot(channel, Wk), channelDim, D_MODEL, false, afterK);
    AbsorbLinear(e + lerp + LinearEntries(Dot(channel, Wk), channelDim, D_MODEL, false), Dot(channel, Wv), D_MODEL,
                 channelDim, false, rest);
  }

  lemma BlockThenIs(m: nat, l: nat, config: ModuleConfig, rest: seq<Path>)
    requires config.factorDen > 0
    ensures BlockThen(m, l, rest) == Paths(BlockEntries(m, l, config)) + rest
  {
    var time, channel := Dot(BlockPrefix(m, l), TensorNames.TimeMixer),
        Dot(BlockPrefix(m, l), TensorNames.ChannelMixer);
    ChannelThenIs(channel, config.ChannelDim(), rest);
    TimeThenIs(time, ChannelThen(channel, rest));
    Absorb(TimeEntries(time), ChannelEntries(channel, config.ChannelDim()), rest);
  }

  /** The layers from `l` on complete the layers before them. */
  lemma {:induction false} LayersThenIs(m: nat, l: nat, config: ModuleConfig, rest: seq<Path>)
    requires config.factorDen > 0 && l <= config.layers
    ensures Paths(LayerEntries(m, config, l)) + LayersThen(m, l, config.layers, rest)
        == Paths(LayerEntries(m, config, config.layers)) + rest
    decreases config.layers - l
  {
    if l < config.layers {
      BlockThenIs(m, l, config, LayersThen(m, l + 1, config.layers, rest));
      Absorb(LayerEntries(m, config, l), BlockEntries(m, l, config), LayersThen(m, l + 1, config.layers, rest));
      LayersThenIs(m, l + 1, config, rest);
    }
  }

  lemma ModuleThenIs(m: nat, config: ModuleConfig, rest: seq<Path>)
    requires config.factorDen > 0
    ensures LayersThen(m, 0, config.layers, rest) == Paths(LayerEntries(m, config, config.layers)) + rest
  {
    var none: nat := 0;
    LayersThenIs(m, none, config, rest);
    assert LayerEntries(m, config, none) == [];
  }

  lemma {:induction false} ModulesThenIs(configs: seq<ModuleConfig>, m: nat, rest: seq<Path>)
    requires Configured(configs) && m <= |configs|
    ensures Paths(ModuleEntries(configs[..m])) + ModulesThen(configs, m, rest) == Paths(ModuleEntries(configs)) + rest
    decreases |configs| - m
  {
    if m < |configs| {
      var tail := ModulesThen(configs, m + 1, rest);
      ModuleThenIs(m, configs[m], tail);
      Absorb(ModuleEntries(configs[..m]), LayerEntries(m, configs[m], configs[m].layers), tail);
      assert configs[..m + 1][..m] == configs[..m];
      ModulesThenIs(configs, m + 1, rest);
    } else {
      assert configs[..m] == configs;
    }
  }

  lemma TailThenIs()
    ensures TailThen() == Paths(TailEntries())
  {
    var afterW := LinearThen([Text(PLinear)], true, []);
    var afterAhead := LinearThen([Text(WLinear)], true, afterW);
    var afterP := LinearThen([Text(AheadLinear)], true, afterAhead);
    var afterHeadW := LinearThen([Text(HeadP), Number(0)], true, afterP);
    var lastOfW := LinearThen([Text(HeadW), Number(4)], true, afterHeadW);
    var normOfW := NormThen([Text(HeadW), Number(2)], lastOfW);
    var afterLogits := LinearThen([Text(HeadW), Number(0)], true, normOfW);
    var e: seq<Entry> := LayerNormEntries([Text(PreheadNorm)], D_MODEL);
    NormThenIs([Text(PreheadNorm)], D_MODEL, LinearThen([Text(HeadAheadLogits), Number(0)], true, afterLogits));
    AbsorbLinear(e, [Text(HeadAheadLogits), Number(0)], HEAD_DIM, D_MODEL, true, afterLogits);
    e := e + LinearEntries([Text(HeadAheadLogits), Number(0)], HEAD_DIM, D_MODEL, true);
    AbsorbLinear(e, [Text(HeadW), Number(0)], D_MODEL, D_MODEL, true, normOfW);
    e := e + LinearEntries([Text(HeadW), Number(0)], D_MODEL, D_MODEL, true);
    AbsorbNorm(e, [Text(HeadW), Number(2)], D_MODEL, lastOfW);
    e := e + LayerNormEntries([Text(HeadW), Number(2)], D_MODEL);
    AbsorbLinear(e, [Text(HeadW), Number(4)], HEAD_DIM, D_MODEL, true, afterHeadW);
    e := e + LinearEntries([Text(HeadW), Number(4)], HEAD_DIM, D_MODEL, true);
    AbsorbLinear(e, [Text(HeadP), Number(0)], HEAD_DIM, D_MODEL, true, afterP);
    e := e + LinearEntries([Text(HeadP), Number(0)], HEAD_DIM, D_MODEL, true);
    AbsorbLinear(e, [Text(AheadLinear)], NUM_POINTS, HEAD_DIM, true, afterAhead);
    e := e + LinearEntries([Text(AheadLinear)], NUM_POINTS, HEAD_DIM, true);
    AbsorbLinear(e, [Text(WLinear)], NUM_CURVES, HEAD_DIM, true, afterW);
    e := e + LinearEntries([Text(WLinear)], NUM_CURVES, HEAD_DIM, true);
    AbsorbLinear(e, [Text(PLinear)], 4, HEAD_DIM, true, []);
    assert Paths(TailEntries()) + [] == Paths(TailEntries());
  }

  /** The constructor takes exactly the names the schema adds, in the order it adds them. */
  lemma TakenIsSchema(configs: seq<ModuleConfig>)
    requires Configured(configs)
    ensures AllThen(configs) == Paths(Schema(configs))
  {
    var rest, none := ModulesThen(configs, 0, TailThen()), configs[..0];
    var output := LinearThen([Text(Features2card), Number(3)], true, rest);
    var norm := NormThen([Text(Features2card), Number(2)], output);
    var e: seq<Entry> := LinearEntries([Text(Features2card), Number(0)], FEATURES_FC_DIM, CARD_FEATURES_DIM, true);
    LinearThenIs([Text(Features2card), Number(0)], FEATURES_FC_DIM, CARD_FEATURES_DIM, true, norm);
    AbsorbNorm(e, [Text(Features2card), Number(2)], FEATURES_FC_DIM, output);
    e := e + LayerNormEntries([Text(Features2card), Number(2)], FEATURES_FC_DIM);
    AbsorbLinear(e, [Text(Features2card), Number(3)], D_MODEL, FEATURES_FC_DIM, true, rest);
    ModulesThenIs(configs, 0, TailThen());
    assert Paths(ModuleEntries(none)) + rest == rest;
    TailThenIs();
    Absorb(FrontEntries(), ModuleEntries(configs), TailThen());
    PathsConcat(FrontEntries() + ModuleEntries(configs), TailEntries());
  }

  // ----- Taking distinct names -----

  /** Taking distinct names leaves exactly the others, unless one is not there. */
  lemma {:induction false} TakingDistinct<T>(tensors: map<string, T>, entries: seq<Entry>)
    requires Distinct(Names(entries))
    ensures Taking(tensors, Paths(entries)).Left? <==> Members(Names(entries)) <= tensors.Keys
    ensures Taking(tensors, Paths(entries)).Left? ==>
        Taking(tensors, Paths(entries)).rest == tensors - Members(Names(entries))
    ensures Taking(tensors, Paths(entries)).Stuck? ==>
      Taking(tensors, Paths(entries)).name in Names(entries) && Taking(tensors, Paths(entries)).name !in tensors
  {
    if entries != [] {
      var name, rest := entries[0].Name(), entries[1..];
      assert Names(entries) == [name] + Names(rest) && Paths(entries)[1..] == Paths(rest);
      assert Members(Names(entries)) == {name} + Members(Names(rest));
      if name in tensors {
        TakingDistinct(tensors - {name}, rest);
        assert name !in Names(rest);
      }
    }
  }

  // ----- Counting the tensors of a model -----

  lemma {:induction false} LayersCounted<T>(layers: seq<Layer<T>>, start: map<string, T>, m: nat)
    requires ModuleOf(layers, start, m)
    ensures LayersCount(layers) == 30 * |layers|
  {
    if layers != [] {
      LayersCounted(layers[..|layers| - 1], start, m);
      assert LayerOf(layers[|layers| - 1], start, m, |layers| - 1);
    }
  }

  lemma {:induction false} ModulesCounted<T>(modules: seq<seq<Layer<T>>>, start: map<string, T>,
                                             configs: seq<ModuleConfig>, n: nat)
    requires ModulesOf(modules, start, configs, n)
    ensures ModulesCount(modules) == 30 * TotalLayers(configs[..n]) && BlockCount(modules) == TotalLayers(configs[..n])
  {
    if n > 0 {
      ModulesCounted(modules[..n - 1], start, configs, n - 1);
      LayersCounted(modules[n - 1], start, n - 1);
      assert configs[..n][..n - 1] == configs[..n - 1];
    }
  }

  lemma ModelCounted<T>(m: Model<T>, start: map<string, T>, configs: seq<ModuleConfig>)
    requires ModelOf(m, start, configs)
    ensures TensorCount(m) == 24 + 30 * TotalLayers(configs) && BlockCount(m.modules) == TotalLayers(configs)
  {
    ModulesCounted(m.modules, start, configs, |configs|);
    assert configs[..|configs|] == configs;
  }

  // ----- The constructor -----

  /** What comes of the constructor's takes on any map. */
  lemma ConstructionOutcome<T>(configs: seq<ModuleConfig>, tensors: map<string, T>)
    requires Configured(configs)
    ensures Taking(tensors, AllThen(configs)).Left? ==>
      SchemaNames(configs) <= tensors.Keys && Taking(tensors, AllThen(configs)).rest == tensors - SchemaNames(configs)
    ensures Taking(tensors, AllThen(configs)).Stuck? ==>
      Taking(tensors, AllThen(configs)).name in SchemaNames(configs)
          && Taking(tensors, AllThen(configs)).name !in tensors
  {
    TakenIsSchema(configs);
    NamesDistinct(configs);
    TakingDistinct(tensors, Schema(configs));
  }

  /** A model is built exactly when the map's names are the schema's; it then holds every tensor under its own name. */
  method FromTensorMap<T>(configs: seq<ModuleConfig>, tensors: map<string, T>)
    returns (r: Result<Model<T>, WeightsError>)
    requires Configured(configs)
    ensures r.Ok? <==> tensors.Keys == SchemaNames(configs)
    ensures r.Ok? ==>
        ModelOf(r.value, tensors, configs) && TensorCount(r.value) == |tensors| == 24 + 30 * TotalLayers(configs)
    ensures r.Err? && r.error.MissingTensor? ==> r.error.name in SchemaNames(configs) && r.error.name !in tensors
    ensures r.Err? && r.error.UnusedTensors? ==>
      SchemaNames(configs) <= tensors.Keys && r.error.names == tensors.Keys - SchemaNames(configs)
  {
    ConstructionOutcome(configs, tensors);
    NamesDistinct(configs);
    var consumer := new TensorConsumer(tensors);
    var model := consumer.TakeModel(configs, Taking(tensors, AllThen(configs)));
    if model.Err? {
      return Err(MissingTensor(model.error));
    }
    assert Taking(consumer.tensors, []) == Left(consumer.tensors);
    r := Finish(consumer, model.value);
    ModelCounted(model.value, tensors, configs);
    KeysLeft(tensors, SchemaNames(configs));
  }

  method Finish<T>(consumer: TensorConsumer<T>, model: Model<T>) returns (r: Result<Model<T>, WeightsError>)
    ensures r == if consumer.tensors == map[] then Ok(model) else Err(UnusedTensors(consumer.tensors.Keys))
  {
    if consumer.tensors == map[] {
      return Ok(model);
    }
    return Err(UnusedTensors(consumer.tensors.Keys));
  }

  lemma KeysLeft<T>(tensors: map<string, T>, names: set<string>)
    requires names <= tensors.Keys
    ensures (tensors - names).Keys == tensors.Keys - names
    ensures tensors - names == map[] <==> tensors.Keys == names
    ensures tensors.Keys == names ==> |tensors| == |names|
  {
    if tensors - names == map[] {
      forall p | p in tensors ensures p in names {
        assert p !in tensors - names;
      }
    }
    assert |tensors| == |tensors.Keys|;
  }

  // ----- Loading with validation -----

  datatype LoadError = Validation(report: Report)

  function MetaOf<T>(tensors: map<string, T>, meta: T -> Meta): (r: Specs)
    ensures r.Keys == tensors.Keys
  {
    map name | name in tensors :: meta(tensors[name])
  }

  /** Once names, shapes and dtypes all match the schema the constructor cannot fail; otherwise it is not reached. */
  method FromLoadedWeights<T>(configs: seq<ModuleConfig>, tensors: map<string, T>, meta: T -> Meta)
    returns (r: Result<Model<T>, LoadError>, ghost expected: Specs)
    requires Configured(configs)
    ensures expected.Keys == SchemaNames(configs)
    ensures forall i :: 0 <= i < |Schema(configs)| ==>
      Schema(configs)[i].Name() in expected
          && expected[Schema(configs)[i].Name()] == Meta(Schema(configs)[i].shape, F32)
    ensures r.Ok? <==> MetaOf(tensors, meta) == expected
    ensures r.Ok? ==> ModelOf(r.value, tensors, configs)
    ensures r.Err? ==> !r.error.report.Ok()
  {
    var specs := ExpectedWeightSpecs(configs);
    expected := specs;
    var report := ValidateLoadedMeta(specs, MetaOf(tensors, meta));
    if !report.Ok() {
      return Err(Validation(report)), expected;
    }
    var model := FromTensorMap(configs, tensors);
    return Ok(model.value), expected;
  }
}
