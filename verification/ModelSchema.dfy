/** The tensors a model must have: names and shapes, and the check of loaded tensors against them. */
module ModelSchema {
  import opened Wrappers
  import opened Lists
  import opened TensorNames

  const D_MODEL: nat := 128
  const N_HEADS: nat := 4
  const HEAD_SIZE: nat := D_MODEL / N_HEADS
  const CARD_FEATURES_DIM: nat := 92
  const FEATURES_FC_DIM: nat := 4 * D_MODEL
  const HEAD_DIM: nat := 4 * D_MODEL
  const NUM_CURVES: nat := 128
  const NUM_POINTS: nat := 128
  const EXPECTED_PARAMETER_COUNT: nat := 2_762_884

  datatype ModuleConfig = ModuleConfig(layers: nat, factorNum: nat, factorDen: nat) {
    function ChannelDim(): nat
      requires factorDen > 0
    {
      D_MODEL * factorNum / factorDen
    }
  }

  const MODULE_CONFIGS: seq<ModuleConfig> :=
    [ModuleConfig(3, 3, 2), ModuleConfig(4, 2, 1), ModuleConfig(2, 3, 2), ModuleConfig(3, 2, 1), ModuleConfig(4, 2, 1)]

  predicate Configured(configs: seq<ModuleConfig>) {
    forall i :: 0 <= i < |configs| ==> configs[i].factorDen > 0
  }

  datatype DType = F32 | OtherDType(name: string)

  datatype Meta = Meta(shape: seq<nat>, dtype: DType)

  /** One tensor of the schema; every dtype is F32. */
  datatype Entry = Entry(path: Path, shape: seq<nat>) {
    function Name(): string {
      Render(path)
    }
  }

  function Dot(prefix: Path, w: Word): Path {
    prefix + [Text(w)]
  }

  // ----- The schema as a list -----

  function LinearEntries(prefix: Path, outDim: nat, inDim: nat, bias: bool): seq<Entry> {
    [Entry(Dot(prefix, Weight), [outDim, inDim])] + (if bias then [Entry(Dot(prefix, Bias), [outDim])] else [])
  }

  function LayerNormEntries(prefix: Path, dim: nat): seq<Entry> {
    [Entry(Dot(prefix, Weight), [dim]), Entry(Dot(prefix, Bias), [dim])]
  }

  function LoraEntries(prefix: Path, dLora: nat): seq<Entry> {
    LinearEntries(Dot(prefix, A), dLora, D_MODEL, false) + LinearEntries(Dot(prefix, BAndLamb), D_MODEL, dLora, true)
  }

  function BlockPrefix(m: nat, l: nat): Path {
    [Text(RwkvModules), Number(m), Text(Blocks), Number(l)]
  }

  function ParamEntries(time: Path): seq<Entry> {
    [Entry(Dot(time, RkvdagLerp), [8, 1, 1, D_MODEL]), Entry(Dot(time, Bonus), [1, 1, N_HEADS, HEAD_SIZE])]
  }

  /** The first tensors of a time mixer, up to the receptance and key projections. */
  function MixEntries(time: Path): seq<Entry> {
    LayerNormEntries(Dot(time, LayerNorm), D_MODEL)
    + ParamEntries(time)
    + LinearEntries(Dot(time, Wr), D_MODEL, D_MODEL, false) + LinearEntries(Dot(time, Wk), D_MODEL, D_MODEL, false)
  }

  /** The full-width tensors of a time mixer. */
  function WideEntries(time: Path): seq<Entry> {
    MixEntries(time)
    + LinearEntries(Dot(time, Wv), D_MODEL, D_MODEL, false) + LinearEntries(Dot(time, Wo), D_MODEL, D_MODEL, false)
    + LinearEntries(Dot(time, KScaleLinear), N_HEADS, D_MODEL, true)
    + LinearEntries(Dot(time, VScaleLinear), N_HEADS, D_MODEL, true)
  }

  /** The low-rank tensors of a time mixer and its group norm. */
  function LowRankEntries(time: Path): seq<Entry> {
    LoraEntries(Dot(time, VLoraSimple), 8) + LoraEntries(Dot(time, ALoraSimple), 16)
        + LoraEntries(Dot(time, DLoraMlp), 16)
    + LinearEntries(Dot(time, LoraAg), 16, D_MODEL, false) + LinearEntries(Dot(time, LoraBg), D_MODEL, 16, false)
    + LayerNormEntries(Dot(time, OutGroupNorm), D_MODEL)
  }

  function TimeEntries(time: Path): seq<Entry> {
    WideEntries(time) + LowRankEntries(time)
  }

  function ChannelEntries(channel: Path, channelDim: nat): seq<Entry> {
    LayerNormEntries(Dot(channel, LayerNorm), D_MODEL) + [Entry(Dot(channel, LerpK), [1, 1, D_MODEL])]
    + LinearEntries(Dot(channel, Wk), channelDim, D_MODEL, false)
    + LinearEntries(Dot(channel, Wv), D_MODEL, channelDim, false)
  }

  function BlockEntries(m: nat, l: nat, config: ModuleConfig): (r: seq<Entry>)
    requires config.factorDen > 0
    ensures |r| == 30
  {
    TimeEntries(Dot(BlockPrefix(m, l), TimeMixer))
        + ChannelEntries(Dot(BlockPrefix(m, l), ChannelMixer), config.ChannelDim())
  }

  /** The first layers of one module. */
  function LayerEntries(m: nat, config: ModuleConfig, layers: nat): (r: seq<Entry>)
    requires config.factorDen > 0
    ensures |r| == 30 * layers
  {
    if layers == 0 then [] else LayerEntries(m, config, layers - 1) + BlockEntries(m, layers - 1, config)
  }

  function TotalLayers(configs: seq<ModuleConfig>): nat {
    if configs == [] then 0 else TotalLayers(configs[..|configs| - 1]) + configs[|configs| - 1].layers
  }

  function ModuleEntries(configs: seq<ModuleConfig>): (r: seq<Entry>)
    requires Configured(configs)
    ensures |r| == 30 * TotalLayers(configs)
  {
    if configs == [] then []
    else
      var m := |configs| - 1;
      ModuleEntries(configs[..m]) + LayerEntries(m, configs[m], configs[m].layers)
  }

  function FrontEntries(): (r: seq<Entry>)
    ensures |r| == 6
  {
    LinearEntries([Text(Features2card), Number(0)], FEATURES_FC_DIM, CARD_FEATURES_DIM, true)
    + LayerNormEntries([Text(Features2card), Number(2)], FEATURES_FC_DIM)
    + LinearEntries([Text(Features2card), Number(3)], D_MODEL, FEATURES_FC_DIM, true)
  }

  function TailEntries(): (r: seq<Entry>)
    ensures |r| == 18
  {
    LayerNormEntries([Text(PreheadNorm)], D_MODEL)
    + LinearEntries([Text(HeadAheadLogits), Number(0)], HEAD_DIM, D_MODEL, true)
    + LinearEntries([Text(HeadW), Number(0)], D_MODEL, D_MODEL, true)
    + LayerNormEntries([Text(HeadW), Number(2)], D_MODEL)
    + LinearEntries([Text(HeadW), Number(4)], HEAD_DIM, D_MODEL, true)
    + LinearEntries([Text(HeadP), Number(0)], HEAD_DIM, D_MODEL, true)
    + LinearEntries([Text(AheadLinear)], NUM_POINTS, HEAD_DIM, true)
    + LinearEntries([Text(WLinear)], NUM_CURVES, HEAD_DIM, true)
    + LinearEntries([Text(PLinear)], 4, HEAD_DIM, true)
  }

  function Schema(configs: seq<ModuleConfig>): (r: seq<Entry>)
    requires Configured(configs)
    ensures |r| == 24 + 30 * TotalLayers(configs)
  {
    FrontEntries() + ModuleEntries(configs) + TailEntries()
  }

  function Paths(entries: seq<Entry>): (r: seq<Path>)
    ensures |r| == |entries| && forall i :: 0 <= i < |r| ==> r[i] == entries[i].path
  {
    seq(|entries|, i requires 0 <= i < |entries| => entries[i].path)
  }

  /** The names under which a file stores the tensors. */
  function Names(entries: seq<Entry>): (r: seq<string>)
    ensures |r| == |entries| && forall i :: 0 <= i < |r| ==> r[i] == entries[i].Name()
  {
    seq(|entries|, i requires 0 <= i < |entries| => entries[i].Name())
  }

  function SchemaNames(configs: seq<ModuleConfig>): set<string>
    requires Configured(configs)
  {
    Members(Names(Schema(configs)))
  }

  // ----- All names differ -----

  /** The place of a path among the thirty of its block, read from the parts after the block prefix. */
  function PlaceInBlock(p: Path): nat
    requires |p| >= 6 && p[4].Text? && p[5].Text?
  {
    var last := if p[|p| - 1] == Text(Weight) then 0 else 1;
    if p[4].word == ChannelMixer then
      match p[5].word
      case LayerNorm => 25 + last
      case LerpK => 27
      case Wk => 28
      case _ => 29
    else
      match p[5].word
      case LayerNorm => last
      case RkvdagLerp => 2
      case Bonus => 3
      case Wr => 4
      case Wk => 5
      case Wv => 6
      case Wo => 7
      case KScaleLinear => 8 + last
      case VScaleLinear => 10 + last
      case VLoraSimple => 12 + PlaceInLora(p, last)
      case ALoraSimple => 15 + PlaceInLora(p, last)
      case DLoraMlp => 18 + PlaceInLora(p, last)
      case LoraAg => 21
      case LoraBg => 22
      case _ => 23 + last
  }

  function PlaceInLora(p: Path, last: nat): nat
    requires |p| >= 6
  {
    if |p| > 6 && p[6] == Text(A) then 0 else 1 + last
  }

  /** Every path of a block starts with the block prefix and tells its own place. */
  ghost predicate InBlock(p: Path, m: nat, l: nat, place: nat) {
    && |p| >= 6 && p[..4] == BlockPrefix(m, l) && p[4].Text? && p[5].Text? && PlaceInBlock(p) == place
  }

  /** A run of entries that hold consecutive places of one block. */
  ghost predicate Places(entries: seq<Entry>, m: nat, l: nat, start: nat) {
    forall k :: 0 <= k < |entries| ==> InBlock(entries[k].path, m, l, start + k)
  }

  lemma PlacesConcat(a: seq<Entry>, b: seq<Entry>, m: nat, l: nat, start: nat)
    requires Places(a, m, l, start) && Places(b, m, l, start + |a|)
    ensures Places(a + b, m, l, start)
  {
    forall k | 0 <= k < |a + b| ensures InBlock((a + b)[k].path, m, l, start + k) {
      if k >= |a| {
        assert InBlock(b[k - |a|].path, m, l, start + |a| + (k - |a|));
      }
    }
  }

  /** The place of the first entry under a word of the time mixer. */
  function TimePlace(w: Word): nat {
    match w
    case LayerNorm => 0
    case RkvdagLerp => 2
    case Bonus => 3
    case Wr => 4
    case Wk => 5
    case Wv => 6
    case Wo => 7
    case KScaleLinear => 8
    case VScaleLinear => 10
    case VLoraSimple => 12
    case ALoraSimple => 15
    case DLoraMlp => 18
    case LoraAg => 21
    case LoraBg => 22
    case _ => 23
  }

  function TimePath(m: nat, l: nat, w: Word): Path {
    Dot(Dot(BlockPrefix(m, l), TimeMixer), w)
  }

  lemma LinearPlaces(e: seq<Entry>, m: nat, l: nat, start: nat, w: Word, outDim: nat, inDim: nat, bias: bool)
    requires Places(e, m, l, start) && start + |e| == TimePlace(w)
    requires w == KScaleLinear || w == VScaleLinear
        || (!bias && (w == Wr || w == Wk || w == Wv || w == Wo || w == LoraAg || w == LoraBg))
    ensures Places(e + LinearEntries(TimePath(m, l, w), outDim, inDim, bias), m, l, start)
  {
    var entries := LinearEntries(TimePath(m, l, w), outDim, inDim, bias);
    assert Places(entries, m, l, TimePlace(w));
    PlacesConcat(e, entries, m, l, start);
  }

  lemma NormPlaces(e: seq<Entry>, m: nat, l: nat, start: nat, w: Word)
    requires Places(e, m, l, start) && start + |e| == TimePlace(w) && (w == LayerNorm || w == OutGroupNorm)
    ensures Places(e + LayerNormEntries(TimePath(m, l, w), D_MODEL), m, l, start)
  {
    var entries := LayerNormEntries(TimePath(m, l, w), D_MODEL);
    assert Places(entries, m, l, TimePlace(w));
    PlacesConcat(e, entries, m, l, start);
  }

  lemma LoraPlaces(e: seq<Entry>, m: nat, l: nat, start: nat, w: Word, dLora: nat)
    requires Places(e, m, l, start) && start + |e| == TimePlace(w)
        && (w == VLoraSimple || w == ALoraSimple || w == DLoraMlp)
    ensures Places(e + LoraEntries(TimePath(m, l, w), dLora), m, l, start)
    ensures |LoraEntries(TimePath(m, l, w), dLora)| == 3
  {
    var p := TimePath(m, l, w);
    var a, b := LinearEntries(Dot(p, A), dLora, D_MODEL, false), LinearEntries(Dot(p, BAndLamb), D_MODEL, dLora, true);
    assert Places(a, m, l, TimePlace(w));
    assert Places(b, m, l, TimePlace(w) + 1);
    PlacesConcat(a, b, m, l, TimePlace(w));
    PlacesConcat(e, a + b, m, l, start);
  }

  lemma ParamPlaces(e: seq<Entry>, m: nat, l: nat)
    requires Places(e, m, l, 0) && |e| == 2
    ensures Places(e + ParamEntries(Dot(BlockPrefix(m, l), TimeMixer)), m, l, 0)
  {
    var entries := ParamEntries(Dot(BlockPrefix(m, l), TimeMixer));
    assert Places(entries, m, l, 2);
    PlacesConcat(e, entries, m, l, 0);
  }

  lemma MixPlaces(m: nat, l: nat)
    ensures Places(MixEntries(Dot(BlockPrefix(m, l), TimeMixer)), m, l, 0)
        && |MixEntries(Dot(BlockPrefix(m, l), TimeMixer))| == 6
  {
    var time := Dot(BlockPrefix(m, l), TimeMixer);
    var e: seq<Entry> := LayerNormEntries(Dot(time, LayerNorm), D_MODEL);
    NormPlaces([], m, l, 0, LayerNorm);
    assert [] + e == e;
    ParamPlaces(e, m, l);
    e := e + ParamEntries(time);
    LinearPlaces(e, m, l, 0, Wr, D_MODEL, D_MODEL, false);
    e := e + LinearEntries(Dot(time, Wr), D_MODEL, D_MODEL, false);
    LinearPlaces(e, m, l, 0, Wk, D_MODEL, D_MODEL, false);
  }

  lemma WidePlaces(m: nat, l: nat)
    ensures Places(WideEntries(Dot(BlockPrefix(m, l), TimeMixer)), m, l, 0)
        && |WideEntries(Dot(BlockPrefix(m, l), TimeMixer))| == 12
  {
    var time := Dot(BlockPrefix(m, l), TimeMixer);
    var e: seq<Entry> := MixEntries(time);
    MixPlaces(m, l);
    LinearPlaces(e, m, l, 0, Wv, D_MODEL, D_MODEL, false);
    e := e + LinearEntries(Dot(time, Wv), D_MODEL, D_MODEL, false);
    LinearPlaces(e, m, l, 0, Wo, D_MODEL, D_MODEL, false);
    e := e + LinearEntries(Dot(time, Wo), D_MODEL, D_MODEL, false);
    LinearPlaces(e, m, l, 0, KScaleLinear, N_HEADS, D_MODEL, true);
    e := e + LinearEntries(Dot(time, KScaleLinear), N_HEADS, D_MODEL, true);
    LinearPlaces(e, m, l, 0, VScaleLinear, N_HEADS, D_MODEL, true);
  }

  lemma LowRankPlaces(m: nat, l: nat)
    ensures Places(LowRankEntries(Dot(BlockPrefix(m, l), TimeMixer)), m, l, 12)
        && |LowRankEntries(Dot(BlockPrefix(m, l), TimeMixer))| == 13
  {
    var time := Dot(BlockPrefix(m, l), TimeMixer);
    var e: seq<Entry> := LoraEntries(Dot(time, VLoraSimple), 8);
    LoraPlaces([], m, l, 12, VLoraSimple, 8);
    assert [] + e == e;
    LoraPlaces(e, m, l, 12, ALoraSimple, 16);
    e := e + LoraEntries(Dot(time, ALoraSimple), 16);
    LoraPlaces(e, m, l, 12, DLoraMlp, 16);
    e := e + LoraEntries(Dot(time, DLoraMlp), 16);
    LinearPlaces(e, m, l, 12, LoraAg, 16, D_MODEL, false);
    e := e + LinearEntries(Dot(time, LoraAg), 16, D_MODEL, false);
    LinearPlaces(e, m, l, 12, LoraBg, D_MODEL, 16, false);
    e := e + LinearEntries(Dot(time, LoraBg), D_MODEL, 16, false);
    NormPlaces(e, m, l, 12, OutGroupNorm);
  }

  lemma TimePlaces(m: nat, l: nat)
    ensures Places(TimeEntries(Dot(BlockPrefix(m, l), TimeMixer)), m, l, 0)
        && |TimeEntries(Dot(BlockPrefix(m, l), TimeMixer))| == 25
  {
    WidePlaces(m, l);
    LowRankPlaces(m, l);
    PlacesConcat(WideEntries(Dot(BlockPrefix(m, l), TimeMixer)), LowRankEntries(Dot(BlockPrefix(m, l), TimeMixer)), m,
                 l, 0);
  }

  lemma ChannelPlaces(m: nat, l: nat, channelDim: nat)
    ensures Places(ChannelEntries(Dot(BlockPrefix(m, l), ChannelMixer), channelDim), m, l, 25)
  {
    var channel := Dot(BlockPrefix(m, l), ChannelMixer);
    assert ChannelEntries(channel, channelDim)
        == [Entry(Dot(Dot(channel, LayerNorm), Weight), [D_MODEL]),
            Entry(Dot(Dot(channel, LayerNorm), Bias), [D_MODEL]), Entry(Dot(channel, LerpK), [1, 1, D_MODEL]),
            Entry(Dot(Dot(channel, Wk), Weight), [channelDim, D_MODEL]),
            Entry(Dot(Dot(channel, Wv), Weight), [D_MODEL, channelDim])];
  }

  lemma BlockPlaces(m: nat, l: nat, config: ModuleConfig)
    requires config.factorDen > 0
    ensures Places(BlockEntries(m, l, config), m, l, 0)
  {
    TimePlaces(m, l);
    ChannelPlaces(m, l, config.ChannelDim());
    PlacesConcat(TimeEntries(Dot(BlockPrefix(m, l), TimeMixer)),
                 ChannelEntries(Dot(BlockPrefix(m, l), ChannelMixer), config.ChannelDim()), m, l, 0);
  }

  predicate InModules(p: Path) {
    |p| >= 6 && p[0] == Text(RwkvModules) && p[1].Number? && p[2] == Text(Blocks) && p[3].Number?
  }

  predicate OfLayer(p: Path, m: nat, l: nat) {
    InModules(p) && p[1] == Number(m) && p[3] == Number(l)
  }

  /** A path of one of the first layers of a module. */
  predicate OfModule(p: Path, m: nat, layers: nat) {
    InModules(p) && p[1] == Number(m) && p[3].n < layers
  }

  ghost predicate DistinctOfLayer(entries: seq<Entry>, m: nat, l: nat) {
    Distinct(Paths(entries)) && forall p: Path :: p in Paths(entries) ==> OfLayer(p, m, l)
  }

  ghost predicate DistinctOfModule(entries: seq<Entry>, m: nat, layers: nat) {
    Distinct(Paths(entries)) && forall p: Path :: p in Paths(entries) ==> OfModule(p, m, layers)
  }

  ghost predicate DistinctOfModules(entries: seq<Entry>, modules: nat) {
    Distinct(Paths(entries)) && forall p: Path :: p in Paths(entries) ==> InModules(p) && p[1].n < modules
  }

  lemma InBlockParts(p: Path, m: nat, l: nat, place: nat)
    requires InBlock(p, m, l, place)
    ensures OfLayer(p, m, l)
  {
    assert forall i :: 0 <= i < 4 ==> p[i] == p[..4][i];
  }

  lemma DistinctConcat<T>(a: seq<T>, b: seq<T>)
    requires Distinct(a) && Distinct(b) && forall i, j :: 0 <= i < |a| && 0 <= j < |b| ==> a[i] != b[j]
    ensures Distinct(a + b)
  {
  }

  lemma BlockDistinct(m: nat, l: nat, config: ModuleConfig)
    requires config.factorDen > 0
    ensures DistinctOfLayer(BlockEntries(m, l, config), m, l)
  {
    var entries := BlockEntries(m, l, config);
    BlockPlaces(m, l, config);
    forall k | 0 <= k < 30 ensures OfLayer(Paths(entries)[k], m, l) {
      assert InBlock(entries[k].path, m, l, 0 + k);
      InBlockParts(entries[k].path, m, l, k);
    }
    forall i, j | 0 <= i < j < 30 ensures Paths(entries)[i] != Paths(entries)[j] {
      assert InBlock(entries[i].path, m, l, 0 + i) && InBlock(entries[j].path, m, l, 0 + j);
    }
  }

  lemma PathsConcat(a: seq<Entry>, b: seq<Entry>)
    ensures Paths(a + b) == Paths(a) + Paths(b)
  {
  }

  lemma LayerJoins(front: seq<Entry>, last: seq<Entry>, m: nat, l: nat)
    requires DistinctOfModule(front, m, l) && DistinctOfLayer(last, m, l)
    ensures DistinctOfModule(front + last, m, l + 1)
  {
    PathsConcat(front, last);
    forall i, j | 0 <= i < |front| && 0 <= j < |last| ensures Paths(front)[i] != Paths(last)[j] {
      assert Paths(front)[i] in Paths(front) && Paths(last)[j] in Paths(last);
    }
    DistinctConcat(Paths(front), Paths(last));
  }

  /** Blocks laid end to end. */
  function EndToEnd(blocks: nat -> seq<Entry>, layers: nat): seq<Entry> {
    if layers == 0 then [] else EndToEnd(blocks, layers - 1) + blocks(layers - 1)
  }

  lemma {:induction false} EndToEndDistinct(blocks: nat -> seq<Entry>, m: nat, layers: nat)
    requires forall l: nat :: l < layers ==> DistinctOfLayer(blocks(l), m, l)
    ensures DistinctOfModule(EndToEnd(blocks, layers), m, layers)
  {
    if layers > 0 {
      EndToEndDistinct(blocks, m, layers - 1);
      LayerJoins(EndToEnd(blocks, layers - 1), blocks(layers - 1), m, layers - 1);
    }
  }

  lemma {:induction false} LayersEndToEnd(m: nat, config: ModuleConfig, blocks: nat -> seq<Entry>, layers: nat)
    requires config.factorDen > 0 && forall l: nat :: blocks(l) == BlockEntries(m, l, config)
    ensures LayerEntries(m, config, layers) == EndToEnd(blocks, layers)
  {
    if layers > 0 {
      LayersEndToEnd(m, config, blocks, layers - 1);
    }
  }

  lemma LayersDistinct(m: nat, config: ModuleConfig, layers: nat)
    requires config.factorDen > 0
    ensures DistinctOfModule(LayerEntries(m, config, layers), m, layers)
  {
    var blocks := (l: nat) => BlockEntries(m, l, config);
    LayersEndToEnd(m, config, blocks, layers);
    forall l: nat | l < layers ensures DistinctOfLayer(blocks(l), m, l) {
      BlockDistinct(m, l, config);
    }
    EndToEndDistinct(blocks, m, layers);
  }

  lemma ModuleJoins(front: seq<Entry>, last: seq<Entry>, m: nat, layers: nat)
    requires DistinctOfModules(front, m) && DistinctOfModule(last, m, layers)
    ensures DistinctOfModules(front + last, m + 1)
  {
    PathsConcat(front, last);
    forall i, j | 0 <= i < |front| && 0 <= j < |last| ensures Paths(front)[i] != Paths(last)[j] {
      assert Paths(front)[i] in Paths(front) && Paths(last)[j] in Paths(last);
    }
    DistinctConcat(Paths(front), Paths(last));
  }

  lemma {:induction false} ModulesDistinct(configs: seq<ModuleConfig>)
    requires Configured(configs)
    ensures DistinctOfModules(ModuleEntries(configs), |configs|)
  {
    if configs != [] {
      var m := |configs| - 1;
      ModulesDistinct(configs[..m]);
      LayersDistinct(m, configs[m], configs[m].layers);
      ModuleJoins(ModuleEntries(configs[..m]), LayerEntries(m, configs[m], configs[m].layers), m, configs[m].layers);
    }
  }

  /** The place of a path among the fixed tensors of its end of the schema. */
  function FixedPlace(p: Path): nat
    requires |p| >= 2 && p[0].Text?
  {
    var last := if p[|p| - 1] == Text(Weight) then 0 else 1;
    match p[0].word
    case Features2card => (if p[1] == Number(0) then 0 else if p[1] == Number(2) then 2 else 4) + last
    case PreheadNorm => last
    case HeadAheadLogits => 2 + last
    case HeadW => (if p[1] == Number(0) then 4 else if p[1] == Number(2) then 6 else 8) + last
    case HeadP => 10 + last
    case AheadLinear => 12 + last
    case WLinear => 14 + last
    case _ => 16 + last
  }

  ghost predicate Fixed(entries: seq<Entry>, start: nat, front: bool) {
    forall k :: 0 <= k < |entries| ==>
      var p := entries[k].path;
      && |p| >= 2 && p[0].Text? && p[0].word != RwkvModules && (front <==> p[0].word == Features2card)
      && FixedPlace(p) == start + k
  }

  lemma FixedConcat(a: seq<Entry>, b: seq<Entry>, start: nat, front: bool)
    requires Fixed(a, start, front) && Fixed(b, start + |a|, front)
    ensures Fixed(a + b, start, front)
  {
    forall k | 0 <= k < |a + b|
      ensures var p := (a + b)[k].path;
        && |p| >= 2 && p[0].Text? && p[0].word != RwkvModules && (front <==> p[0].word == Features2card)
        && FixedPlace(p) == start + k
    {
      if k >= |a| {
        assert FixedPlace(b[k - |a|].path) == start + |a| + (k - |a|);
      }
    }
  }

  lemma FrontFixed()
    ensures Fixed(FrontEntries(), 0, true)
  {
    var a := LinearEntries([Text(Features2card), Number(0)], FEATURES_FC_DIM, CARD_FEATURES_DIM, true);
    var b := LayerNormEntries([Text(Features2card), Number(2)], FEATURES_FC_DIM);
    var c := LinearEntries([Text(Features2card), Number(3)], D_MODEL, FEATURES_FC_DIM, true);
    assert Fixed(a, 0, true) && Fixed(b, 2, true) && Fixed(c, 4, true);
    FixedConcat(a, b, 0, true);
    FixedConcat(a + b, c, 0, true);
  }

  lemma HeadLinearFixed(e: seq<Entry>, prefix: Path, outDim: nat, inDim: nat)
    requires Fixed(e, 0, false) && prefix != [] && prefix[0].Text? && prefix[0].word != RwkvModules
        && prefix[0].word != Features2card
    requires FixedPlace(Dot(prefix, Weight)) == |e| && FixedPlace(Dot(prefix, Bias)) == |e| + 1
    ensures Fixed(e + LinearEntries(prefix, outDim, inDim, true), 0, false)
    ensures Fixed(e + LayerNormEntries(prefix, outDim), 0, false)
  {
    assert Fixed(LinearEntries(prefix, outDim, inDim, true), |e|, false);
    assert Fixed(LayerNormEntries(prefix, outDim), |e|, false);
    FixedConcat(e, LinearEntries(prefix, outDim, inDim, true), 0, false);
    FixedConcat(e, LayerNormEntries(prefix, outDim), 0, false);
  }

  lemma TailFixed()
    ensures Fixed(TailEntries(), 0, false)
  {
    var e: seq<Entry> := LayerNormEntries([Text(PreheadNorm)], D_MODEL);
    HeadLinearFixed([], [Text(PreheadNorm)], D_MODEL, D_MODEL);
    assert [] + e == e;
    HeadLinearFixed(e, [Text(HeadAheadLogits), Number(0)], HEAD_DIM, D_MODEL);
    e := e + LinearEntries([Text(HeadAheadLogits), Number(0)], HEAD_DIM, D_MODEL, true);
    HeadLinearFixed(e, [Text(HeadW), Number(0)], D_MODEL, D_MODEL);
    e := e + LinearEntries([Text(HeadW), Number(0)], D_MODEL, D_MODEL, true);
    HeadLinearFixed(e, [Text(HeadW), Number(2)], D_MODEL, D_MODEL);
    e := e + LayerNormEntries([Text(HeadW), Number(2)], D_MODEL);
    HeadLinearFixed(e, [Text(HeadW), Number(4)], HEAD_DIM, D_MODEL);
    e := e + LinearEntries([Text(HeadW), Number(4)], HEAD_DIM, D_MODEL, true);
    LastFixed(e);
  }

  lemma LastFixed(e0: seq<Entry>)
    requires Fixed(e0, 0, false) && |e0| == 10
    ensures Fixed(e0 + LinearEntries([Text(HeadP), Number(0)], HEAD_DIM, D_MODEL, true)
        + LinearEntries([Text(AheadLinear)], NUM_POINTS, HEAD_DIM, true)
                  + LinearEntries([Text(WLinear)], NUM_CURVES, HEAD_DIM, true)
                  + LinearEntries([Text(PLinear)], 4, HEAD_DIM, true), 0, false)
  {
    var e := e0;
    HeadLinearFixed(e, [Text(HeadP), Number(0)], HEAD_DIM, D_MODEL);
    e := e + LinearEntries([Text(HeadP), Number(0)], HEAD_DIM, D_MODEL, true);
    HeadLinearFixed(e, [Text(AheadLinear)], NUM_POINTS, HEAD_DIM);
    e := e + LinearEntries([Text(AheadLinear)], NUM_POINTS, HEAD_DIM, true);
    HeadLinearFixed(e, [Text(WLinear)], NUM_CURVES, HEAD_DIM);
    e := e + LinearEntries([Text(WLinear)], NUM_CURVES, HEAD_DIM, true);
    HeadLinearFixed(e, [Text(PLinear)], 4, HEAD_DIM);
  }

  lemma FixedDistinct(entries: seq<Entry>, front: bool)
    requires Fixed(entries, 0, front)
    ensures Distinct(Paths(entries))
  {
    forall i, j | 0 <= i < j < |entries| ensures Paths(entries)[i] != Paths(entries)[j] {
      assert FixedPlace(entries[i].path) == 0 + i && FixedPlace(entries[j].path) == 0 + j;
    }
  }

  lemma FrontDistinct(configs: seq<ModuleConfig>)
    requires Configured(configs)
    ensures Distinct(Paths(FrontEntries() + ModuleEntries(configs)))
    ensures Paths(FrontEntries() + ModuleEntries(configs)) == Paths(FrontEntries()) + Paths(ModuleEntries(configs))
  {
    var front, middle := FrontEntries(), ModuleEntries(configs);
    FrontFixed();
    FixedDistinct(front, true);
    ModulesDistinct(configs);
    forall i, j | 0 <= i < |front| && 0 <= j < |middle| ensures Paths(front)[i] != Paths(middle)[j] {
      assert Paths(middle)[j] in Paths(middle);
    }
    DistinctConcat(Paths(front), Paths(middle));
    PathsConcat(front, middle);
  }

  lemma TailApart(configs: seq<ModuleConfig>, i: nat, j: nat)
    requires Configured(configs) && i < |FrontEntries() + ModuleEntries(configs)| && j < |TailEntries()|
    ensures Paths(FrontEntries() + ModuleEntries(configs))[i] != Paths(TailEntries())[j]
    ensures Paths(FrontEntries() + ModuleEntries(configs))[i] != [] && Paths(TailEntries())[j] != []
  {
    FrontFixed();
    TailFixed();
    ModulesDistinct(configs);
    FixedApart(FrontEntries(), ModuleEntries(configs), |configs|, TailEntries(), i, j);
  }

  lemma FixedApart(front: seq<Entry>, middle: seq<Entry>, m: nat, tail: seq<Entry>, i: nat, j: nat)
    requires Fixed(front, 0, true) && DistinctOfModules(middle, m) && Fixed(tail, 0, false)
    requires i < |front + middle| && j < |tail|
    ensures Paths(front + middle)[i] != Paths(tail)[j]
    ensures Paths(front + middle)[i] != [] && Paths(tail)[j] != []
  {
    if i >= |front| {
      assert Paths(middle)[i - |front|] in Paths(middle);
    }
  }

  /** For every list of module configurations the paths of the schema are pairwise distinct. */
  lemma SchemaDistinct(configs: seq<ModuleConfig>)
    requires Configured(configs)
    ensures Distinct(Paths(Schema(configs)))
    ensures forall i :: 0 <= i < |Schema(configs)| ==> Schema(configs)[i].path != []
  {
    var front, tail := FrontEntries() + ModuleEntries(configs), TailEntries();
    FrontDistinct(configs);
    TailFixed();
    FixedDistinct(tail, false);
    forall i: nat, j: nat | i < |front| && j < |tail|
      ensures Paths(front)[i] != Paths(tail)[j] && Paths(front)[i] != [] && Paths(tail)[j] != []
    {
      TailApart(configs, i, j);
    }
    DistinctConcat(Paths(front), Paths(tail));
    PathsConcat(front, tail);
    forall i | 0 <= i < |Schema(configs)| ensures Schema(configs)[i].path != [] {
      if i < |front| {
        assert Paths(front)[i] != Paths(tail)[0];
      } else {
        assert Paths(front + tail)[i] == Paths(tail)[i - |front|] && Paths(front)[0] != Paths(tail)[i - |front|];
      }
    }
  }

  /** So are the names the paths are formatted to. */
  lemma NamesDistinct(configs: seq<ModuleConfig>)
    requires Configured(configs)
    ensures Distinct(Names(Schema(configs)))
    ensures |SchemaNames(configs)| == 24 + 30 * TotalLayers(configs)
  {
    var entries := Schema(configs);
    SchemaDistinct(configs);
    forall i, j | 0 <= i < j < |entries| ensures Names(entries)[i] != Names(entries)[j] {
      assert Paths(entries)[i] != Paths(entries)[j];
      if Names(entries)[i] == Names(entries)[j] {
        RenderIsInjective(entries[i].path, entries[j].path);
      }
    }
    DistinctLength(Names(entries));
  }
}
