/** The typed model weights, built by taking every tensor out of a map by its name. */
module ModelWeights {
  import opened Wrappers
  import opened Lists
  import opened TensorNames
  import opened ModelSchema

  datatype Linear<T> = Linear(weight: T, bias: Option<T>)

  datatype Norm<T> = Norm(weight: T, bias: T)

  datatype Lora<T> = Lora(a: Linear<T>, bAndLamb: Linear<T>)

  datatype TimeMixer<T> = TimeMixer(
    layerNorm: Norm<T>, rkvdagLerp: T, bonus: T, wr: Linear<T>, wk: Linear<T>, wv: Linear<T>, wo: Linear<T>,
    kScale: Linear<T>, vScale: Linear<T>, vLora: Lora<T>, aLora: Lora<T>, dLora: Lora<T>,
    gateA: Linear<T>, gateB: Linear<T>, groupNorm: Norm<T>)

  datatype ChannelMixer<T> = ChannelMixer(layerNorm: Norm<T>, lerpK: T, wk: Linear<T>, wv: Linear<T>)

  datatype Layer<T> = Layer(time: TimeMixer<T>, channel: ChannelMixer<T>)

  /** A linear layer, a norm and a linear layer. */
  datatype Sandwich<T> = Sandwich(input: Linear<T>, norm: Norm<T>, output: Linear<T>)

  datatype Model<T> = Model(
    features2card: Sandwich<T>, modules: seq<seq<Layer<T>>>, preheadNorm: Norm<T>, headAheadLogits: Linear<T>,
    headW: Sandwich<T>, headP: Linear<T>, aheadLinear: Linear<T>, wLinear: Linear<T>, pLinear: Linear<T>)

  datatype WeightsError = MissingTensor(name: string) | UnusedTensors(names: set<string>)

  // ----- Tensor counts -----

  function LinearCount<T>(l: Linear<T>): nat {
    1 + if l.bias.Some? then 1 else 0
  }

  function LoraCount<T>(l: Lora<T>): nat {
    LinearCount(l.a) + LinearCount(l.bAndLamb)
  }

  function TimeCount<T>(t: TimeMixer<T>): nat {
    2 + 2 + LinearCount(t.wr) + LinearCount(t.wk) + LinearCount(t.wv) + LinearCount(t.wo) + LinearCount(t.kScale)
    + LinearCount(t.vScale) + LoraCount(t.vLora) + LoraCount(t.aLora) + LoraCount(t.dLora)
    + LinearCount(t.gateA) + LinearCount(t.gateB) + 2
  }

  function ChannelCount<T>(c: ChannelMixer<T>): nat {
    2 + 1 + LinearCount(c.wk) + LinearCount(c.wv)
  }

  function LayersCount<T>(layers: seq<Layer<T>>): nat {
    if layers == [] then 0
    else
      LayersCount(layers[..|layers| - 1]) + TimeCount(layers[|layers| - 1].time)
      + ChannelCount(layers[|layers| - 1].channel)
  }

  function ModulesCount<T>(modules: seq<seq<Layer<T>>>): nat {
    if modules == [] then 0 else ModulesCount(modules[..|modules| - 1]) + LayersCount(modules[|modules| - 1])
  }

  function BlockCount<T>(modules: seq<seq<Layer<T>>>): nat {
    if modules == [] then 0 else BlockCount(modules[..|modules| - 1]) + |modules[|modules| - 1]|
  }

  function SandwichCount<T>(s: Sandwich<T>): nat {
    LinearCount(s.input) + 2 + LinearCount(s.output)
  }

  function TensorCount<T>(m: Model<T>): nat {
    SandwichCount(m.features2card) + ModulesCount(m.modules) + 2 + LinearCount(m.headAheadLogits)
        + SandwichCount(m.headW)
    + LinearCount(m.headP) + LinearCount(m.aheadLinear) + LinearCount(m.wLinear) + LinearCount(m.pLinear)
  }

  // ----- The order in which tensors are taken -----

  function LinearThen(prefix: Path, bias: bool, rest: seq<Path>): seq<Path> {
    [Dot(prefix, Weight)] + (if bias then [Dot(prefix, Bias)] + rest else rest)
  }

  function NormThen(prefix: Path, rest: seq<Path>): seq<Path> {
    [Dot(prefix, Weight)] + ([Dot(prefix, Bias)] + rest)
  }

  function LoraThen(prefix: Path, rest: seq<Path>): seq<Path> {
    LinearThen(Dot(prefix, A), false, LinearThen(Dot(prefix, BAndLamb), true, rest))
  }

  function LowRankThen(time: Path, rest: seq<Path>): seq<Path> {
    LoraThen(Dot(time, VLoraSimple), LoraThen(Dot(time, ALoraSimple), LoraThen(Dot(time, DLoraMlp),
      LinearThen(Dot(time, LoraAg), false,
                 LinearThen(Dot(time, LoraBg), false, NormThen(Dot(time, OutGroupNorm), rest))))))
  }

  function MixThen(time: Path, rest: seq<Path>): seq<Path> {
    NormThen(Dot(time, LayerNorm), [Dot(time, RkvdagLerp)] + ([Dot(time, Bonus)] +
      LinearThen(Dot(time, Wr), false, LinearThen(Dot(time, Wk), false, rest))))
  }

  function TimeThen(time: Path, rest: seq<Path>): seq<Path> {
    MixThen(time, LinearThen(Dot(time, Wv), false, LinearThen(Dot(time, Wo), false,
      LinearThen(Dot(time, KScaleLinear), true, LinearThen(Dot(time, VScaleLinear), true, LowRankThen(time, rest))))))
  }

  function ChannelThen(channel: Path, rest: seq<Path>): seq<Path> {
    NormThen(Dot(channel, LayerNorm), [Dot(channel, LerpK)] +
      LinearThen(Dot(channel, Wk), false, LinearThen(Dot(channel, Wv), false, rest)))
  }

  function BlockThen(m: nat, l: nat, rest: seq<Path>): seq<Path> {
    TimeThen(Dot(BlockPrefix(m, l), TensorNames.TimeMixer),
             ChannelThen(Dot(BlockPrefix(m, l), TensorNames.ChannelMixer), rest))
  }

  /** Layers `l` and up of a module. */
  function LayersThen(m: nat, l: nat, layers: nat, rest: seq<Path>): seq<Path>
    requires l <= layers
    decreases layers - l
  {
    if l == layers then rest else BlockThen(m, l, LayersThen(m, l + 1, layers, rest))
  }

  /** Modules `m` and up. */
  function ModulesThen(configs: seq<ModuleConfig>, m: nat, rest: seq<Path>): seq<Path>
    requires m <= |configs|
    decreases |configs| - m
  {
    if m == |configs| then rest else LayersThen(m, 0, configs[m].layers, ModulesThen(configs, m + 1, rest))
  }

  function SandwichThen(first: Path, norm: Path, last: Path, rest: seq<Path>): seq<Path> {
    LinearThen(first, true, NormThen(norm, LinearThen(last, true, rest)))
  }

  function TailThen(): seq<Path> {
    NormThen([Text(PreheadNorm)], LinearThen([Text(HeadAheadLogits), Number(0)], true,
      SandwichThen([Text(HeadW), Number(0)], [Text(HeadW), Number(2)], [Text(HeadW), Number(4)],
      LinearThen([Text(HeadP), Number(0)], true, LinearThen([Text(AheadLinear)], true,
      LinearThen([Text(WLinear)], true, LinearThen([Text(PLinear)], true, [])))))))
  }

  function AllThen(configs: seq<ModuleConfig>): seq<Path> {
    SandwichThen([Text(Features2card), Number(0)], [Text(Features2card), Number(2)], [Text(Features2card), Number(3)],
                 ModulesThen(configs, 0, TailThen()))
  }

  // ----- Taking -----

  /** What comes of taking a list of names: what is left, or the first name that is not there. */
  datatype Outcome<T> = Left(rest: map<string, T>) | Stuck(name: string)

  function Taking<T>(tensors: map<string, T>, paths: seq<Path>): Outcome<T> {
    if paths == [] then Left(tensors)
    else
      var name := Render(paths[0]);
      if name !in tensors then Stuck(name) else Taking(tensors - {name}, paths[1..])
  }

  /** The fields hold the tensors of their own names. */
  ghost predicate TensorOf<T>(t: T, start: map<string, T>, path: Path) {
    Render(path) in start && t == start[Render(path)]
  }

  ghost predicate LinearOf<T>(l: Linear<T>, start: map<string, T>, prefix: Path, bias: bool) {
    && TensorOf(l.weight, start, Dot(prefix, Weight))
    && (if bias then l.bias.Some? && TensorOf(l.bias.value, start, Dot(prefix, Bias)) else l.bias == None)
  }

  ghost predicate NormOf<T>(n: Norm<T>, start: map<string, T>, prefix: Path) {
    TensorOf(n.weight, start, Dot(prefix, Weight)) && TensorOf(n.bias, start, Dot(prefix, Bias))
  }

  ghost predicate LoraOf<T>(l: Lora<T>, start: map<string, T>, prefix: Path) {
    LinearOf(l.a, start, Dot(prefix, A), false) && LinearOf(l.bAndLamb, start, Dot(prefix, BAndLamb), true)
  }

  ghost predicate LowRankOf<T>(v: Lora<T>, a: Lora<T>, d: Lora<T>, gateA: Linear<T>, gateB: Linear<T>,
                               groupNorm: Norm<T>, start: map<string, T>, time: Path) {
    && LoraOf(v, start, Dot(time, VLoraSimple)) && LoraOf(a, start, Dot(time, ALoraSimple))
    && LoraOf(d, start, Dot(time, DLoraMlp))
    && LinearOf(gateA, start, Dot(time, LoraAg), false) && LinearOf(gateB, start, Dot(time, LoraBg), false)
    && NormOf(groupNorm, start, Dot(time, OutGroupNorm))
  }

  ghost predicate TimeOf<T>(t: TimeMixer<T>, start: map<string, T>, time: Path) {
    && NormOf(t.layerNorm, start, Dot(time, LayerNorm))
    && TensorOf(t.rkvdagLerp, start, Dot(time, RkvdagLerp)) && TensorOf(t.bonus, start, Dot(time, Bonus))
    && LinearOf(t.wr, start, Dot(time, Wr), false) && LinearOf(t.wk, start, Dot(time, Wk), false)
    && LinearOf(t.wv, start, Dot(time, Wv), false) && LinearOf(t.wo, start, Dot(time, Wo), false)
    && LinearOf(t.kScale, start, Dot(time, KScaleLinear), true)
    && LinearOf(t.vScale, start, Dot(time, VScaleLinear), true)
    && LowRankOf(t.vLora, t.aLora, t.dLora, t.gateA, t.gateB, t.groupNorm, start, time)
  }

  ghost predicate ChannelOf<T>(c: ChannelMixer<T>, start: map<string, T>, channel: Path) {
    && NormOf(c.layerNorm, start, Dot(channel, LayerNorm)) && TensorOf(c.lerpK, start, Dot(channel, LerpK))
    && LinearOf(c.wk, start, Dot(channel, Wk), false) && LinearOf(c.wv, start, Dot(channel, Wv), false)
  }

  ghost predicate LayerOf<T>(l: Layer<T>, start: map<string, T>, m: nat, index: nat) {
    && TimeOf(l.time, start, Dot(BlockPrefix(m, index), TensorNames.TimeMixer))
    && ChannelOf(l.channel, start, Dot(BlockPrefix(m, index), TensorNames.ChannelMixer))
  }

  ghost predicate ModuleOf<T>(layers: seq<Layer<T>>, start: map<string, T>, m: nat) {
    forall l :: 0 <= l < |layers| ==> LayerOf(layers[l], start, m, l)
  }

  /** The first `n` modules, each with the layers of its configuration. */
  ghost predicate ModulesOf<T>(modules: seq<seq<Layer<T>>>, start: map<string, T>, configs: seq<ModuleConfig>, n: nat) {
    && |modules| == n <= |configs|
    && forall i :: 0 <= i < n ==> |modules[i]| == configs[i].layers && ModuleOf(modules[i], start, i)
  }

  lemma ModuleSnoc<T>(layers: seq<Layer<T>>, layer: Layer<T>, start: map<string, T>, m: nat)
    requires ModuleOf(layers, start, m) && LayerOf(layer, start, m, |layers|)
    ensures ModuleOf(layers + [layer], start, m)
  {
    forall l | 0 <= l < |layers| + 1 ensures LayerOf((layers + [layer])[l], start, m, l) {
      if l < |layers| {
        assert LayerOf(layers[l], start, m, l);
      }
    }
  }

  lemma ModulesSnoc<T>(modules: seq<seq<Layer<T>>>, blocks: seq<Layer<T>>, start: map<string, T>,
                       configs: seq<ModuleConfig>, n: nat)
    requires ModulesOf(modules, start, configs, n) && n < |configs| && |blocks| == configs[n].layers
        && ModuleOf(blocks, start, n)
    ensures ModulesOf(modules + [blocks], start, configs, n + 1)
  {
    forall i | 0 <= i < n + 1
      ensures |(modules + [blocks])[i]| == configs[i].layers && ModuleOf((modules + [blocks])[i], start, i)
    {
      if i < n {
        assert ModuleOf(modules[i], start, i);
      }
    }
  }

  ghost predicate SandwichOf<T>(s: Sandwich<T>, start: map<string, T>, first: Path, norm: Path, last: Path) {
    LinearOf(s.input, start, first, true) && NormOf(s.norm, start, norm) && LinearOf(s.output, start, last, true)
  }

  ghost predicate ModelOf<T>(m: Model<T>, start: map<string, T>, configs: seq<ModuleConfig>) {
    && SandwichOf(m.features2card, start, [Text(Features2card), Number(0)], [Text(Features2card), Number(2)],
                  [Text(Features2card), Number(3)])
    && ModulesOf(m.modules, start, configs, |configs|)
    && NormOf(m.preheadNorm, start, [Text(PreheadNorm)])
    && LinearOf(m.headAheadLogits, start, [Text(HeadAheadLogits), Number(0)], true)
    && SandwichOf(m.headW, start, [Text(HeadW), Number(0)], [Text(HeadW), Number(2)], [Text(HeadW), Number(4)])
    && LinearOf(m.headP, start, [Text(HeadP), Number(0)], true)
    && LinearOf(m.aheadLinear, start, [Text(AheadLinear)], true)
    && LinearOf(m.wLinear, start, [Text(WLinear)], true) && LinearOf(m.pLinear, start, [Text(PLinear)], true)
  }

  /** Takes tensors out of its map; `goal` is what comes of taking all that is still to be taken. */
  class TensorConsumer<T> {
    var tensors: map<string, T>
    ghost const start: map<string, T>

    constructor (tensors: map<string, T>)
      ensures this.tensors == this.start == tensors
    {
      this.tensors, this.start := tensors, tensors;
    }

    /** Nothing was put in that was not there. */
    ghost predicate Valid()
      reads this
    {
      forall name :: name in tensors ==> name in start && tensors[name] == start[name]
    }

    ghost predicate Toward(goal: Outcome<T>, paths: seq<Path>)
      reads this
    {
      Valid() && goal == Taking(tensors, paths)
    }

    method Take(path: Path, ghost rest: seq<Path>, ghost goal: Outcome<T>) returns (r: Result<T, string>)
      requires Toward(goal, [path] + rest)
      modifies this`tensors
      ensures r.Err? ==> goal == Stuck(r.error)
      ensures r.Ok? ==> Toward(goal, rest) && TensorOf(r.value, start, path)
    {
      assert ([path] + rest)[1..] == rest;
      var name := Render(path);
      if name !in tensors {
        return Err(name);
      }
      r := Ok(tensors[name]);
      tensors := tensors - {name};
    }

    method TakeLinear(prefix: Path, bias: bool, ghost rest: seq<Path>, ghost goal: Outcome<T>)
      returns (r: Result<Linear<T>, string>)
      requires Toward(goal, LinearThen(prefix, bias, rest))
      modifies this`tensors
      ensures r.Err? ==> goal == Stuck(r.error)
      ensures r.Ok? ==> Toward(goal, rest) && LinearOf(r.value, start, prefix, bias)
    {
      var weight :- Take(Dot(prefix, Weight), if bias then [Dot(prefix, Bias)] + rest else rest, goal);
      if bias {
        var value :- Take(Dot(prefix, Bias), rest, goal);
        return Ok(Linear(weight, Some(value)));
      }
      return Ok(Linear(weight, None));
    }

    method TakeNorm(prefix: Path, ghost rest: seq<Path>, ghost goal: Outcome<T>) returns (r: Result<Norm<T>, string>)
      requires Toward(goal, NormThen(prefix, rest))
      modifies this`tensors
      ensures r.Err? ==> goal == Stuck(r.error)
      ensures r.Ok? ==> Toward(goal, rest) && NormOf(r.value, start, prefix)
    {
      var weight :- Take(Dot(prefix, Weight), [Dot(prefix, Bias)] + rest, goal);
      var bias :- Take(Dot(prefix, Bias), rest, goal);
      return Ok(Norm(weight, bias));
    }

    method TakeLora(prefix: Path, ghost rest: seq<Path>, ghost goal: Outcome<T>) returns (r: Result<Lora<T>, string>)
      requires Toward(goal, LoraThen(prefix, rest))
      modifies this`tensors
      ensures r.Err? ==> goal == Stuck(r.error)
      ensures r.Ok? ==> Toward(goal, rest) && LoraOf(r.value, start, prefix)
    {
      var a :- TakeLinear(Dot(prefix, A), false, LinearThen(Dot(prefix, BAndLamb), true, rest), goal);
      var b :- TakeLinear(Dot(prefix, BAndLamb), true, rest, goal);
      return Ok(Lora(a, b));
    }

    method TakeTime(time: Path, ghost rest: seq<Path>, ghost goal: Outcome<T>) returns (r: Result<TimeMixer<T>, string>)
      requires Toward(goal, TimeThen(time, rest))
      modifies this`tensors
      ensures r.Err? ==> goal == Stuck(r.error)
      ensures r.Ok? ==> Toward(goal, rest) && TimeOf(r.value, start, time)
    {
      ghost var afterV := LowRankThen(time, rest);
      ghost var afterK := LinearThen(Dot(time, VScaleLinear), true, afterV);
      ghost var afterO := LinearThen(Dot(time, KScaleLinear), true, afterK);
      ghost var afterWv := LinearThen(Dot(time, Wo), false, afterO);
      ghost var afterWk := LinearThen(Dot(time, Wv), false, afterWv);
      ghost var afterWr := LinearThen(Dot(time, Wk), false, afterWk);
      ghost var afterBonus := LinearThen(Dot(time, Wr), false, afterWr);
      var layerNorm :- TakeNorm(Dot(time, LayerNorm), [Dot(time, RkvdagLerp)] + ([Dot(time, Bonus)] + afterBonus),
                                goal);
      var lerp :- Take(Dot(time, RkvdagLerp), [Dot(time, Bonus)] + afterBonus, goal);
      var bonus :- Take(Dot(time, Bonus), afterBonus, goal);
      var wr :- TakeLinear(Dot(time, Wr), false, afterWr, goal);
      var wk :- TakeLinear(Dot(time, Wk), false, afterWk, goal);
      var wv :- TakeLinear(Dot(time, Wv), false, afterWv, goal);
      var wo :- TakeLinear(Dot(time, Wo), false, afterO, goal);
      var kScale :- TakeLinear(Dot(time, KScaleLinear), true, afterK, goal);
      var vScale :- TakeLinear(Dot(time, VScaleLinear), true, afterV, goal);
      var low :- TakeLowRank(time, rest, goal);
      return Ok(TimeMixer.TimeMixer(layerNorm, lerp, bonus, wr, wk, wv, wo, kScale, vScale,
                                    low.0, low.1, low.2, low.3, low.4, low.5));
    }

    method TakeLowRank(time: Path, ghost rest: seq<Path>, ghost goal: Outcome<T>)
      returns (r: Result<(Lora<T>, Lora<T>, Lora<T>, Linear<T>, Linear<T>, Norm<T>), string>)
      requires Toward(goal, LowRankThen(time, rest))
      modifies this`tensors
      ensures r.Err? ==> goal == Stuck(r.error)
      ensures r.Ok? ==>
          Toward(goal, rest) && LowRankOf(r.value.0, r.value.1, r.value.2, r.value.3, r.value.4, r.value.5, start, time)
    {
      ghost var afterB := NormThen(Dot(time, OutGroupNorm), rest);
      ghost var afterA := LinearThen(Dot(time, LoraBg), false, afterB);
      ghost var afterD := LinearThen(Dot(time, LoraAg), false, afterA);
      ghost var afterALora := LoraThen(Dot(time, DLoraMlp), afterD);
      var vLora :- TakeLora(Dot(time, VLoraSimple), LoraThen(Dot(time, ALoraSimple), afterALora), goal);
      var aLora :- TakeLora(Dot(time, ALoraSimple), afterALora, goal);
      var dLora :- TakeLora(Dot(time, DLoraMlp), afterD, goal);
      var gateA :- TakeLinear(Dot(time, LoraAg), false, afterA, goal);
      var gateB :- TakeLinear(Dot(time, LoraBg), false, afterB, goal);
      var groupNorm :- TakeNorm(Dot(time, OutGroupNorm), rest, goal);
      return Ok((vLora, aLora, dLora, gateA, gateB, groupNorm));
    }

    method TakeChannel(channel: Path, ghost rest: seq<Path>, ghost goal: Outcome<T>)
      returns (r: Result<ChannelMixer<T>, string>)
      requires Toward(goal, ChannelThen(channel, rest))
      modifies this`tensors
      ensures r.Err? ==> goal == Stuck(r.error)
      ensures r.Ok? ==> Toward(goal, rest) && ChannelOf(r.value, start, channel)
    {
      ghost var afterK := LinearThen(Dot(channel, Wv), false, rest);
      ghost var afterLerp := LinearThen(Dot(channel, Wk), false, afterK);
      var layerNorm :- TakeNorm(Dot(channel, LayerNorm), [Dot(channel, LerpK)] + afterLerp, goal);
      var lerpK :- Take(Dot(channel, LerpK), afterLerp, goal);
      var wk :- TakeLinear(Dot(channel, Wk), false, afterK, goal);
      var wv :- TakeLinear(Dot(channel, Wv), false, rest, goal);
      return Ok(ChannelMixer.ChannelMixer(layerNorm, lerpK, wk, wv));
    }

    method TakeLayer(m: nat, l: nat, ghost rest: seq<Path>, ghost goal: Outcome<T>)
      returns (r: Result<Layer<T>, string>)
      requires Toward(goal, BlockThen(m, l, rest))
      modifies this`tensors
      ensures r.Err? ==> goal == Stuck(r.error)
      ensures r.Ok? ==> Toward(goal, rest) && LayerOf(r.value, start, m, l)
    {
      var time :- TakeTime(Dot(BlockPrefix(m, l), TensorNames.TimeMixer),
                           ChannelThen(Dot(BlockPrefix(m, l), TensorNames.ChannelMixer), rest), goal);
      var channel :- TakeChannel(Dot(BlockPrefix(m, l), TensorNames.ChannelMixer), rest, goal);
      return Ok(Layer(time, channel));
    }

    method TakeModule(m: nat, config: ModuleConfig, ghost rest: seq<Path>, ghost goal: Outcome<T>)
      returns (r: Result<seq<Layer<T>>, string>)
      requires Toward(goal, LayersThen(m, 0, config.layers, rest))
      modifies this`tensors
      ensures r.Err? ==> goal == Stuck(r.error)
      ensures r.Ok? ==> Toward(goal, rest) && |r.value| == config.layers && ModuleOf(r.value, start, m)
    {
      var blocks: seq<Layer<T>> := [];
      for l := 0 to config.layers
        invariant Toward(goal, LayersThen(m, l, config.layers, rest))
        invariant |blocks| == l && ModuleOf(blocks, start, m)
      {
        var block :- TakeLayer(m, l, LayersThen(m, l + 1, config.layers, rest), goal);
        ModuleSnoc(blocks, block, start, m);
        blocks := blocks + [block];
      }
      return Ok(blocks);
    }

    method TakeSandwich(first: Path, norm: Path, last: Path, ghost rest: seq<Path>, ghost goal: Outcome<T>)
      returns (r: Result<Sandwich<T>, string>)
      requires Toward(goal, SandwichThen(first, norm, last, rest))
      modifies this`tensors
      ensures r.Err? ==> goal == Stuck(r.error)
      ensures r.Ok? ==> Toward(goal, rest) && SandwichOf(r.value, start, first, norm, last)
    {
      var input :- TakeLinear(first, true, NormThen(norm, LinearThen(last, true, rest)), goal);
      var middle :- TakeNorm(norm, LinearThen(last, true, rest), goal);
      var output :- TakeLinear(last, true, rest, goal);
      return Ok(Sandwich(input, middle, output));
    }

    method TakeModules(configs: seq<ModuleConfig>, ghost rest: seq<Path>, ghost goal: Outcome<T>)
      returns (r: Result<seq<seq<Layer<T>>>, string>)
      requires Toward(goal, ModulesThen(configs, 0, rest))
      modifies this`tensors
      ensures r.Err? ==> goal == Stuck(r.error)
      ensures r.Ok? ==> Toward(goal, rest) && ModulesOf(r.value, start, configs, |configs|)
    {
      var modules: seq<seq<Layer<T>>> := [];
      for m := 0 to |configs|
        invariant Toward(goal, ModulesThen(configs, m, rest)) && ModulesOf(modules, start, configs, m)
      {
        var blocks :- TakeModule(m, configs[m], ModulesThen(configs, m + 1, rest), goal);
        ModulesSnoc(modules, blocks, start, configs, m);
        modules := modules + [blocks];
      }
      return Ok(modules);
    }

    method TakeModel(configs: seq<ModuleConfig>, ghost goal: Outcome<T>) returns (r: Result<Model<T>, string>)
      requires Toward(goal, AllThen(configs))
      modifies this`tensors
      ensures r.Err? ==> goal == Stuck(r.error)
      ensures r.Ok? ==> Toward(goal, []) && ModelOf(r.value, start, configs)
    {
      ghost var afterW := LinearThen([Text(PLinear)], true, []);
      ghost var afterAhead := LinearThen([Text(WLinear)], true, afterW);
      ghost var afterP := LinearThen([Text(AheadLinear)], true, afterAhead);
      ghost var afterHeadW := LinearThen([Text(HeadP), Number(0)], true, afterP);
      ghost var afterLogits := SandwichThen([Text(HeadW), Number(0)], [Text(HeadW), Number(2)],
                                            [Text(HeadW), Number(4)], afterHeadW);
      ghost var afterNorm := LinearThen([Text(HeadAheadLogits), Number(0)], true, afterLogits);
      var features :- TakeSandwich([Text(Features2card), Number(0)], [Text(Features2card), Number(2)],
                                   [Text(Features2card), Number(3)], ModulesThen(configs, 0, TailThen()), goal);
      var modules :- TakeModules(configs, TailThen(), goal);
      var preheadNorm :- TakeNorm([Text(PreheadNorm)], afterNorm, goal);
      var logits :- TakeLinear([Text(HeadAheadLogits), Number(0)], true, afterLogits, goal);
      var headW :- TakeSandwich([Text(HeadW), Number(0)], [Text(HeadW), Number(2)], [Text(HeadW), Number(4)],
                                afterHeadW, goal);
      var headP :- TakeLinear([Text(HeadP), Number(0)], true, afterP, goal);
      var ahead :- TakeLinear([Text(AheadLinear)], true, afterAhead, goal);
      var w :- TakeLinear([Text(WLinear)], true, afterW, goal);
      var p :- TakeLinear([Text(PLinear)], true, [], goal);
      return Ok(Model(features, modules, preheadNorm, logits, headW, headP, ahead, w, p));
    }
  }
}
