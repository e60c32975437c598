/** The schema written out: every name and shape as it stands in a weight file. */
module SchemaTable {
  import opened Wrappers
  import opened Lists
  import opened TensorNames
  import opened ModelSchema

  /** The parts of a name behind its block or from its start, and the shape. */
  datatype Row = Row(parts: seq<string>, shape: seq<nat>)

  /** The entries have the names, behind some first parts, and the shapes of a table. */
  ghost predicate Tabulated(entries: seq<Entry>, first: seq<string>, table: seq<Row>) {
    && |entries| == |table|
    && forall i :: 0 <= i < |entries| ==>
      Texts(entries[i].path) == first + table[i].parts && entries[i].shape == table[i].shape
  }

  lemma TablesJoin(a: seq<Entry>, b: seq<Entry>, first: seq<string>, s: seq<Row>, t: seq<Row>)
    requires Tabulated(a, first, s) && Tabulated(b, first, t)
    ensures Tabulated(a + b, first, s + t)
  {
    forall i | 0 <= i < |a + b|
      ensures Texts((a + b)[i].path) == first + (s + t)[i].parts && (a + b)[i].shape == (s + t)[i].shape
    {
      if i >= |a| {
        assert (a + b)[i] == b[i - |a|] && (s + t)[i] == t[i - |a|];
      }
    }
  }

  lemma TextsDot(path: Path, w: Word)
    ensures Texts(Dot(path, w)) == Texts(path) + [WordText(w)]
  {
  }

  /** A path below a block: the block's texts and those of the words. */
  lemma TextsBelow(path: Path, first: seq<string>, parts: seq<string>, w: Word)
    requires Texts(path) == first + parts
    ensures Texts(Dot(path, w)) == first + (parts + [WordText(w)])
  {
    TextsDot(path, w);
    assert first + parts + [WordText(w)] == first + (parts + [WordText(w)]);
  }

  // ----- The table -----

  function LinearRows(parts: seq<string>, outDim: nat, inDim: nat, bias: bool): seq<Row> {
    [Row(parts + ["weight"], [outDim, inDim])] + (if bias then [Row(parts + ["bias"], [outDim])] else [])
  }

  function NormRows(parts: seq<string>, dim: nat): seq<Row> {
    [Row(parts + ["weight"], [dim]), Row(parts + ["bias"], [dim])]
  }

  function LoraRows(parts: seq<string>, rank: nat): seq<Row> {
    LinearRows(parts + ["A"], rank, 128, false) + LinearRows(parts + ["B_and_lamb"], 128, rank, true)
  }

  function MixRows(): seq<Row> {
    NormRows(["time_mixer", "layer_norm"], 128)
    + [Row(["time_mixer", "rkvdag_lerp"], [8, 1, 1, 128]), Row(["time_mixer", "bonus"], [1, 1, 4, 32])]
    + LinearRows(["time_mixer", "W_r"], 128, 128, false) + LinearRows(["time_mixer", "W_k"], 128, 128, false)
  }

  function WideRows(): seq<Row> {
    MixRows()
    + LinearRows(["time_mixer", "W_v"], 128, 128, false) + LinearRows(["time_mixer", "W_o"], 128, 128, false)
    + LinearRows(["time_mixer", "k_scale_linear"], 4, 128, true)
    + LinearRows(["time_mixer", "v_scale_linear"], 4, 128, true)
  }

  function LowRankRows(): seq<Row> {
    LoraRows(["time_mixer", "v_lora_simple"], 8) + LoraRows(["time_mixer", "a_lora_simple"], 16)
    + LoraRows(["time_mixer", "d_lora_mlp"], 16)
    + LinearRows(["time_mixer", "lora_A_g"], 16, 128, false) + LinearRows(["time_mixer", "lora_B_g"], 128, 16, false)
    + NormRows(["time_mixer", "out_group_norm"], 128)
  }

  function ChannelRows(dim: nat): seq<Row> {
    NormRows(["channel_mixer", "layer_norm"], 128) + [Row(["channel_mixer", "lerp_k"], [1, 1, 128])]
    + LinearRows(["channel_mixer", "W_k"], dim, 128, false) + LinearRows(["channel_mixer", "W_v"], 128, dim, false)
  }

  /** The thirty tensors of a layer. */
  function BlockRows(dim: nat): seq<Row> {
    WideRows() + LowRankRows() + ChannelRows(dim)
  }

  function FrontRows(): seq<Row> {
    LinearRows(["features2card", "0"], 512, 92, true) + NormRows(["features2card", "2"], 512)
    + LinearRows(["features2card", "3"], 128, 512, true)
  }

  function TailRows(): seq<Row> {
    NormRows(["prehead_norm"], 128) + LinearRows(["head_ahead_logits", "0"], 512, 128, true)
    + LinearRows(["head_w", "0"], 128, 128, true) + NormRows(["head_w", "2"], 128)
    + LinearRows(["head_w", "4"], 512, 128, true) + LinearRows(["head_p", "0"], 512, 128, true)
    + LinearRows(["ahead_linear"], 128, 512, true) + LinearRows(["w_linear"], 128, 512, true)
    + LinearRows(["p_linear"], 4, 512, true)
  }

  // ----- The schema follows the table -----

  lemma LinearTable(path: Path, first: seq<string>, parts: seq<string>, outDim: nat, inDim: nat, bias: bool)
    requires Texts(path) == first + parts
    ensures Tabulated(LinearEntries(path, outDim, inDim, bias), first, LinearRows(parts, outDim, inDim, bias))
  {
    TextsBelow(path, first, parts, Weight);
    TextsBelow(path, first, parts, Bias);
  }

  lemma NormTable(path: Path, first: seq<string>, parts: seq<string>, dim: nat)
    requires Texts(path) == first + parts
    ensures Tabulated(LayerNormEntries(path, dim), first, NormRows(parts, dim))
  {
    TextsBelow(path, first, parts, Weight);
    TextsBelow(path, first, parts, Bias);
  }

  lemma LoraTable(path: Path, first: seq<string>, parts: seq<string>, rank: nat)
    requires Texts(path) == first + parts
    ensures Tabulated(LoraEntries(path, rank), first, LoraRows(parts, rank))
  {
    TextsBelow(path, first, parts, A);
    TextsBelow(path, first, parts, BAndLamb);
    LinearTable(Dot(path, A), first, parts + ["A"], rank, 128, false);
    LinearTable(Dot(path, BAndLamb), first, parts + ["B_and_lamb"], 128, rank, true);
    TablesJoin(LinearEntries(Dot(path, A), rank, 128, false), LinearEntries(Dot(path, BAndLamb), 128, rank, true),
               first, LinearRows(parts + ["A"], rank, 128, false), LinearRows(parts + ["B_and_lamb"], 128, rank, true));
  }

  /** A linear layer, a norm or a pair below a mixer, after the entries before it. */
  lemma LinearNext(e: seq<Entry>, first: seq<string>, t: seq<Row>, path: Path, part: string, w: Word, outDim: nat,
                   inDim: nat, bias: bool)
    requires Tabulated(e, first, t) && Texts(path) == first + [part]
    ensures Tabulated(e + LinearEntries(Dot(path, w), outDim, inDim, bias), first,
                      t + LinearRows([part, WordText(w)], outDim, inDim, bias))
  {
    TextsBelow(path, first, [part], w);
    assert [part] + [WordText(w)] == [part, WordText(w)];
    LinearTable(Dot(path, w), first, [part, WordText(w)], outDim, inDim, bias);
    TablesJoin(e, LinearEntries(Dot(path, w), outDim, inDim, bias), first, t,
               LinearRows([part, WordText(w)], outDim, inDim, bias));
  }

  lemma NormNext(e: seq<Entry>, first: seq<string>, t: seq<Row>, path: Path, part: string, w: Word, dim: nat)
    requires Tabulated(e, first, t) && Texts(path) == first + [part]
    ensures Tabulated(e + LayerNormEntries(Dot(path, w), dim), first, t + NormRows([part, WordText(w)], dim))
  {
    TextsBelow(path, first, [part], w);
    assert [part] + [WordText(w)] == [part, WordText(w)];
    NormTable(Dot(path, w), first, [part, WordText(w)], dim);
    TablesJoin(e, LayerNormEntries(Dot(path, w), dim), first, t, NormRows([part, WordText(w)], dim));
  }

  lemma LoraNext(e: seq<Entry>, first: seq<string>, t: seq<Row>, path: Path, part: string, w: Word, rank: nat)
    requires Tabulated(e, first, t) && Texts(path) == first + [part]
    ensures Tabulated(e + LoraEntries(Dot(path, w), rank), first, t + LoraRows([part, WordText(w)], rank))
  {
    TextsBelow(path, first, [part], w);
    assert [part] + [WordText(w)] == [part, WordText(w)];
    LoraTable(Dot(path, w), first, [part, WordText(w)], rank);
    TablesJoin(e, LoraEntries(Dot(path, w), rank), first, t, LoraRows([part, WordText(w)], rank));
  }

  lemma ParamTable(path: Path, first: seq<string>)
    requires Texts(path) == first + ["time_mixer"]
    ensures Tabulated(ParamEntries(path), first,
      [Row(["time_mixer", "rkvdag_lerp"], [8, 1, 1, 128]), Row(["time_mixer", "bonus"], [1, 1, 4, 32])])
  {
    TextsBelow(path, first, ["time_mixer"], RkvdagLerp);
    TextsBelow(path, first, ["time_mixer"], Bonus);
    assert ["time_mixer"] + ["rkvdag_lerp"] == ["time_mixer", "rkvdag_lerp"];
    assert ["time_mixer"] + ["bonus"] == ["time_mixer", "bonus"];
  }

  lemma Nothing(first: seq<string>)
    ensures Tabulated([], first, [])
  {
  }

  lemma TwoLinear(e: seq<Entry>, first: seq<string>, t: seq<Row>, path: Path, part: string, v: Word, w: Word,
                  outDim: nat, inDim: nat, bias: bool)
    requires Tabulated(e, first, t) && Texts(path) == first + [part]
    ensures Tabulated(e + LinearEntries(Dot(path, v), outDim, inDim, bias)
                        + LinearEntries(Dot(path, w), outDim, inDim, bias), first,
                      t + LinearRows([part, WordText(v)], outDim, inDim, bias)
                        + LinearRows([part, WordText(w)], outDim, inDim, bias))
  {
    LinearNext(e, first, t, path, part, v, outDim, inDim, bias);
    LinearNext(e + LinearEntries(Dot(path, v), outDim, inDim, bias), first,
               t + LinearRows([part, WordText(v)], outDim, inDim, bias), path, part, w, outDim, inDim, bias);
  }

  lemma FirstNorm(path: Path, first: seq<string>, part: string)
    requires Texts(path) == first + [part]
    ensures Tabulated(LayerNormEntries(Dot(path, LayerNorm), 128), first, NormRows([part, "layer_norm"], 128))
  {
    TextsBelow(path, first, [part], LayerNorm);
    assert [part] + ["layer_norm"] == [part, "layer_norm"];
    NormTable(Dot(path, LayerNorm), first, [part, "layer_norm"], 128);
  }

  lemma MixTable(time: Path, first: seq<string>)
    requires Texts(time) == first + ["time_mixer"]
    ensures Tabulated(MixEntries(time), first, MixRows())
  {
    FirstNorm(time, first, "time_mixer");
    ParamTable(time, first);
    var params := [Row(["time_mixer", "rkvdag_lerp"], [8, 1, 1, 128]), Row(["time_mixer", "bonus"], [1, 1, 4, 32])];
    var e, t := LayerNormEntries(Dot(time, LayerNorm), 128), NormRows(["time_mixer", "layer_norm"], 128);
    TablesJoin(e, ParamEntries(time), first, t, params);
    TwoLinear(e + ParamEntries(time), first, t + params, time, "time_mixer", Wr, Wk, 128, 128, false);
  }

  lemma WideTable(time: Path, first: seq<string>)
    requires Texts(time) == first + ["time_mixer"]
    ensures Tabulated(WideEntries(time), first, WideRows())
  {
    MixTable(time, first);
    WideWordsSpelled();
    ProjectionsNext(MixEntries(time), first, MixRows(), time, "W_v", "W_o", "k_scale_linear", "v_scale_linear");
  }

  lemma WideWordsSpelled()
    ensures WordText(Wr) == "W_r" && WordText(Wk) == "W_k" && WordText(Wv) == "W_v" && WordText(Wo) == "W_o"
    ensures WordText(KScaleLinear) == "k_scale_linear" && WordText(VScaleLinear) == "v_scale_linear"
  {
  }

  lemma LowRankWordsSpelled()
    ensures WordText(VLoraSimple) == "v_lora_simple" && WordText(ALoraSimple) == "a_lora_simple"
    ensures WordText(DLoraMlp) == "d_lora_mlp" && WordText(OutGroupNorm) == "out_group_norm"
    ensures WordText(LoraAg) == "lora_A_g" && WordText(LoraBg) == "lora_B_g"
  {
  }

  lemma ProjectionsNext(e: seq<Entry>, first: seq<string>, t: seq<Row>, time: Path, v: string, o: string, ks: string,
                        vs: string)
    requires Tabulated(e, first, t) && Texts(time) == first + ["time_mixer"]
    requires v == WordText(Wv) && o == WordText(Wo) && ks == WordText(KScaleLinear) && vs == WordText(VScaleLinear)
    ensures Tabulated(e + LinearEntries(Dot(time, Wv), 128, 128, false) + LinearEntries(Dot(time, Wo), 128, 128, false)
                      + LinearEntries(Dot(time, KScaleLinear), 4, 128, true)
                      + LinearEntries(Dot(time, VScaleLinear), 4, 128, true), first,
                      t + LinearRows(["time_mixer", v], 128, 128, false)
                      + LinearRows(["time_mixer", o], 128, 128, false)
                      + LinearRows(["time_mixer", ks], 4, 128, true)
                      + LinearRows(["time_mixer", vs], 4, 128, true))
  {
    TwoLinear(e, first, t, time, "time_mixer", Wv, Wo, 128, 128, false);
    TwoLinear(e + LinearEntries(Dot(time, Wv), 128, 128, false) + LinearEntries(Dot(time, Wo), 128, 128, false), first,
              t + LinearRows(["time_mixer", v], 128, 128, false)
                + LinearRows(["time_mixer", o], 128, 128, false),
              time, "time_mixer", KScaleLinear, VScaleLinear, 4, 128, true);
  }

  lemma LorasTable(time: Path, first: seq<string>, v: string, a: string, d: string)
    requires Texts(time) == first + ["time_mixer"]
    requires v == WordText(VLoraSimple) && a == WordText(ALoraSimple) && d == WordText(DLoraMlp)
    ensures Tabulated(LoraEntries(Dot(time, VLoraSimple), 8) + LoraEntries(Dot(time, ALoraSimple), 16)
                      + LoraEntries(Dot(time, DLoraMlp), 16), first,
                      LoraRows(["time_mixer", v], 8) + LoraRows(["time_mixer", a], 16)
                      + LoraRows(["time_mixer", d], 16))
  {
    TextsBelow(time, first, ["time_mixer"], VLoraSimple);
    assert ["time_mixer"] + ["v_lora_simple"] == ["time_mixer", v];
    LoraTable(Dot(time, VLoraSimple), first, ["time_mixer", v], 8);
    var e, t := LoraEntries(Dot(time, VLoraSimple), 8), LoraRows(["time_mixer", v], 8);
    LoraNext(e, first, t, time, "time_mixer", ALoraSimple, 16);
    LoraNext(e + LoraEntries(Dot(time, ALoraSimple), 16), first, t + LoraRows(["time_mixer", a], 16),
             time, "time_mixer", DLoraMlp, 16);
  }

  lemma GateNext(e: seq<Entry>, first: seq<string>, t: seq<Row>, time: Path, a: string, b: string, n: string)
    requires Tabulated(e, first, t) && Texts(time) == first + ["time_mixer"]
    requires a == WordText(LoraAg) && b == WordText(LoraBg) && n == WordText(OutGroupNorm)
    ensures Tabulated(e + LinearEntries(Dot(time, LoraAg), 16, 128, false)
                      + LinearEntries(Dot(time, LoraBg), 128, 16, false)
                      + LayerNormEntries(Dot(time, OutGroupNorm), 128), first,
                      t + LinearRows(["time_mixer", a], 16, 128, false)
                      + LinearRows(["time_mixer", b], 128, 16, false)
                      + NormRows(["time_mixer", n], 128))
  {
    LinearNext(e, first, t, time, "time_mixer", LoraAg, 16, 128, false);
    var e1, t1 := e + LinearEntries(Dot(time, LoraAg), 16, 128, false),
        t + LinearRows(["time_mixer", a], 16, 128, false);
    LinearNext(e1, first, t1, time, "time_mixer", LoraBg, 128, 16, false);
    NormNext(e1 + LinearEntries(Dot(time, LoraBg), 128, 16, false), first,
             t1 + LinearRows(["time_mixer", b], 128, 16, false), time, "time_mixer", OutGroupNorm, 128);
  }

  lemma LowRankTable(time: Path, first: seq<string>)
    requires Texts(time) == first + ["time_mixer"]
    ensures Tabulated(LowRankEntries(time), first, LowRankRows())
  {
    LowRankWordsSpelled();
    LorasTable(time, first, "v_lora_simple", "a_lora_simple", "d_lora_mlp");
    GateNext(LoraEntries(Dot(time, VLoraSimple), 8) + LoraEntries(Dot(time, ALoraSimple), 16)
             + LoraEntries(Dot(time, DLoraMlp), 16), first,
             LoraRows(["time_mixer", "v_lora_simple"], 8) + LoraRows(["time_mixer", "a_lora_simple"], 16)
             + LoraRows(["time_mixer", "d_lora_mlp"], 16), time, "lora_A_g", "lora_B_g", "out_group_norm");
  }

  lemma ChannelTable(channel: Path, first: seq<string>, dim: nat)
    requires Texts(channel) == first + ["channel_mixer"]
    ensures Tabulated(ChannelEntries(channel, dim), first, ChannelRows(dim))
  {
    FirstNorm(channel, first, "channel_mixer");
    TextsBelow(channel, first, ["channel_mixer"], LerpK);
    assert ["channel_mixer"] + ["lerp_k"] == ["channel_mixer", "lerp_k"];
    var lerp, row := [Entry(Dot(channel, LerpK), [1, 1, 128])], [Row(["channel_mixer", "lerp_k"], [1, 1, 128])];
    assert Tabulated(lerp, first, row);
    var e, t := LayerNormEntries(Dot(channel, LayerNorm), 128), NormRows(["channel_mixer", "layer_norm"], 128);
    TablesJoin(e, lerp, first, t, row);
    ChannelLinears(e + lerp, first, t + row, channel, dim);
  }

  lemma ChannelLinears(e: seq<Entry>, first: seq<string>, t: seq<Row>, channel: Path, dim: nat)
    requires Tabulated(e, first, t) && Texts(channel) == first + ["channel_mixer"]
    ensures Tabulated(e + LinearEntries(Dot(channel, Wk), dim, 128, false)
                      + LinearEntries(Dot(channel, Wv), 128, dim, false), first,
                      t + LinearRows(["channel_mixer", "W_k"], dim, 128, false)
                      + LinearRows(["channel_mixer", "W_v"], 128, dim, false))
  {
    LinearNext(e, first, t, channel, "channel_mixer", Wk, dim, 128, false);
    LinearNext(e + LinearEntries(Dot(channel, Wk), dim, 128, false), first,
               t + LinearRows(["channel_mixer", "W_k"], dim, 128, false), channel, "channel_mixer", Wv, 128, dim,
               false);
  }

  // ----- Blocks, front and tail -----

  /** The texts every name of a block starts with. */
  function BlockTexts(m: nat, l: nat): seq<string> {
    ["rwkv_modules", Decimal(m), "blocks", Decimal(l)]
  }

  lemma BlockTable(m: nat, l: nat, config: ModuleConfig)
    requires config.factorDen > 0
    ensures Tabulated(BlockEntries(m, l, config), BlockTexts(m, l),
                      BlockRows(128 * config.factorNum / config.factorDen))
  {
    var prefix, first, dim := BlockPrefix(m, l), BlockTexts(m, l), config.ChannelDim();
    assert Texts(prefix) == first;
    TextsDot(prefix, TimeMixer);
    TextsDot(prefix, ChannelMixer);
    var time, channel := Dot(prefix, TimeMixer), Dot(prefix, ChannelMixer);
    WideTable(time, first);
    LowRankTable(time, first);
    ChannelTable(channel, first, dim);
    TablesJoin(WideEntries(time), LowRankEntries(time), first, WideRows(), LowRankRows());
    TablesJoin(TimeEntries(time), ChannelEntries(channel, dim), first, WideRows() + LowRankRows(), ChannelRows(dim));
  }

  lemma LinearFrom(e: seq<Entry>, t: seq<Row>, path: Path, parts: seq<string>, outDim: nat, inDim: nat)
    requires Tabulated(e, [], t) && Texts(path) == parts
    ensures Tabulated(e + LinearEntries(path, outDim, inDim, true), [], t + LinearRows(parts, outDim, inDim, true))
  {
    assert [] + parts == parts;
    LinearTable(path, [], parts, outDim, inDim, true);
    TablesJoin(e, LinearEntries(path, outDim, inDim, true), [], t, LinearRows(parts, outDim, inDim, true));
  }

  lemma NormFrom(e: seq<Entry>, t: seq<Row>, path: Path, parts: seq<string>, dim: nat)
    requires Tabulated(e, [], t) && Texts(path) == parts
    ensures Tabulated(e + LayerNormEntries(path, dim), [], t + NormRows(parts, dim))
  {
    assert [] + parts == parts;
    NormTable(path, [], parts, dim);
    TablesJoin(e, LayerNormEntries(path, dim), [], t, NormRows(parts, dim));
  }

  lemma DigitsSpelled()
    ensures Decimal(0) == "0" && Decimal(2) == "2" && Decimal(3) == "3" && Decimal(4) == "4"
  {
  }

  lemma NumberedTexts(w: Word, n: nat)
    ensures Texts([Text(w), Number(n)]) == [WordText(w), Decimal(n)]
    ensures Texts([Text(w)]) == [WordText(w)]
  {
  }

  lemma FrontTable()
    ensures Tabulated(FrontEntries(), [], FrontRows())
  {
    DigitsSpelled();
    NumberedTexts(Features2card, 0);
    NumberedTexts(Features2card, 2);
    NumberedTexts(Features2card, 3);
    var none: seq<Entry>, nil: seq<Row> := [], [];
    LinearFrom(none, nil, [Text(Features2card), Number(0)], ["features2card", "0"], 512, 92);
    var e, t := LinearEntries([Text(Features2card), Number(0)], 512, 92, true),
        LinearRows(["features2card", "0"], 512, 92, true);
    assert none + e == e && nil + t == t;
    NormFrom(e, t, [Text(Features2card), Number(2)], ["features2card", "2"], 512);
    e, t := e + LayerNormEntries([Text(Features2card), Number(2)], 512), t + NormRows(["features2card", "2"], 512);
    LinearFrom(e, t, [Text(Features2card), Number(3)], ["features2card", "3"], 128, 512);
  }

  lemma HeadTable(h: string, w: string)
    requires h == WordText(HeadAheadLogits) && w == WordText(HeadW)
    ensures Tabulated(LayerNormEntries([Text(PreheadNorm)], 128)
                      + LinearEntries([Text(HeadAheadLogits), Number(0)], 512, 128, true)
                      + LinearEntries([Text(HeadW), Number(0)], 128, 128, true)
                      + LayerNormEntries([Text(HeadW), Number(2)], 128)
                      + LinearEntries([Text(HeadW), Number(4)], 512, 128, true), [],
                      NormRows([WordText(PreheadNorm)], 128) + LinearRows([h, "0"], 512, 128, true)
                      + LinearRows([w, "0"], 128, 128, true) + NormRows([w, "2"], 128)
                      + LinearRows([w, "4"], 512, 128, true))
  {
    DigitsSpelled();
    NumberedTexts(PreheadNorm, 0);
    NumberedTexts(HeadAheadLogits, 0);
    NumberedTexts(HeadW, 0);
    NumberedTexts(HeadW, 2);
    NumberedTexts(HeadW, 4);
    var p := WordText(PreheadNorm);
    assert [] + [p] == [p];
    NormTable([Text(PreheadNorm)], [], [p], 128);
    var e, t := LayerNormEntries([Text(PreheadNorm)], 128), NormRows([p], 128);
    LinearFrom(e, t, [Text(HeadAheadLogits), Number(0)], [h, "0"], 512, 128);
    e, t := e + LinearEntries([Text(HeadAheadLogits), Number(0)], 512, 128, true),
        t + LinearRows([h, "0"], 512, 128, true);
    LinearFrom(e, t, [Text(HeadW), Number(0)], [w, "0"], 128, 128);
    e, t := e + LinearEntries([Text(HeadW), Number(0)], 128, 128, true), t + LinearRows([w, "0"], 128, 128, true);
    NormFrom(e, t, [Text(HeadW), Number(2)], [w, "2"], 128);
    e, t := e + LayerNormEntries([Text(HeadW), Number(2)], 128), t + NormRows([w, "2"], 128);
    LinearFrom(e, t, [Text(HeadW), Number(4)], [w, "4"], 512, 128);
  }

  lemma LastHeadsNext(e: seq<Entry>, t: seq<Row>, p: string, a: string, w: string, l: string)
    requires Tabulated(e, [], t)
    requires p == WordText(HeadP) && a == WordText(AheadLinear) && w == WordText(WLinear) && l == WordText(PLinear)
    ensures Tabulated(e + LinearEntries([Text(HeadP), Number(0)], 512, 128, true)
                      + LinearEntries([Text(AheadLinear)], 128, 512, true)
                      + LinearEntries([Text(WLinear)], 128, 512, true) + LinearEntries([Text(PLinear)], 4, 512, true),
                      [], t + LinearRows([p, "0"], 512, 128, true) + LinearRows([a], 128, 512, true)
                      + LinearRows([w], 128, 512, true) + LinearRows([l], 4, 512, true))
  {
    DigitsSpelled();
    NumberedTexts(HeadP, 0);
    NumberedTexts(AheadLinear, 0);
    NumberedTexts(WLinear, 0);
    NumberedTexts(PLinear, 0);
    LinearFrom(e, t, [Text(HeadP), Number(0)], [p, "0"], 512, 128);
    var e1, t1 := e + LinearEntries([Text(HeadP), Number(0)], 512, 128, true), t + LinearRows([p, "0"], 512, 128, true);
    LinearFrom(e1, t1, [Text(AheadLinear)], [a], 128, 512);
    e1, t1 := e1 + LinearEntries([Text(AheadLinear)], 128, 512, true), t1 + LinearRows([a], 128, 512, true);
    LinearFrom(e1, t1, [Text(WLinear)], [w], 128, 512);
    e1, t1 := e1 + LinearEntries([Text(WLinear)], 128, 512, true), t1 + LinearRows([w], 128, 512, true);
    LinearFrom(e1, t1, [Text(PLinear)], [l], 4, 512);
  }

  lemma HeadWordsSpelled()
    ensures WordText(PreheadNorm) == "prehead_norm" && WordText(HeadAheadLogits) == "head_ahead_logits"
    ensures WordText(HeadW) == "head_w" && WordText(HeadP) == "head_p" && WordText(AheadLinear) == "ahead_linear"
    ensures WordText(WLinear) == "w_linear" && WordText(PLinear) == "p_linear"
  {
  }

  lemma TailTable()
    ensures Tabulated(TailEntries(), [], TailRows())
  {
    HeadWordsSpelled();
    HeadTable("head_ahead_logits", "head_w");
    LastHeadsNext(LayerNormEntries([Text(PreheadNorm)], 128)
                  + LinearEntries([Text(HeadAheadLogits), Number(0)], 512, 128, true)
                  + LinearEntries([Text(HeadW), Number(0)], 128, 128, true)
                  + LayerNormEntries([Text(HeadW), Number(2)], 128)
                  + LinearEntries([Text(HeadW), Number(4)], 512, 128, true),
                  NormRows(["prehead_norm"], 128) + LinearRows(["head_ahead_logits", "0"], 512, 128, true)
                  + LinearRows(["head_w", "0"], 128, 128, true) + NormRows(["head_w", "2"], 128)
                  + LinearRows(["head_w", "4"], 512, 128, true),
                  "head_p", "ahead_linear", "w_linear", "p_linear");
  }

  // ----- The whole schema -----

  /** A part of a list of parts laid end to end. */
  lemma {:induction false} PartAt(parts: nat -> seq<Entry>, n: nat, k: nat, at: nat)
    requires k < n && at == |EndToEnd(parts, k)|
    ensures at + |parts(k)| <= |EndToEnd(parts, n)| && EndToEnd(parts, n)[at..at + |parts(k)|] == parts(k)
  {
    if k < n - 1 {
      PartAt(parts, n - 1, k, at);
      SliceOfFront(EndToEnd(parts, n - 1), parts(n - 1), at, |parts(k)|);
    } else {
      SliceOfLast(EndToEnd(parts, k), parts(k));
    }
  }

  lemma SliceOfLast<T>(front: seq<T>, last: seq<T>)
    ensures (front + last)[|front|..|front| + |last|] == last
  {
  }

  lemma SliceOfFront<T>(front: seq<T>, last: seq<T>, at: nat, n: nat)
    requires at + n <= |front|
    ensures (front + last)[at..at + n] == front[at..at + n]
  {
  }

  /** The number of layers before a module. */
  function LayersBefore(configs: seq<ModuleConfig>, m: nat): nat
    requires m <= |configs|
  {
    if m == 0 then 0 else LayersBefore(configs, m - 1) + configs[m - 1].layers
  }

  lemma {:induction false} LayersBeforeIs(configs: seq<ModuleConfig>, m: nat)
    requires m <= |configs|
    ensures LayersBefore(configs, m) == TotalLayers(configs[..m])
  {
    if m > 0 {
      LayersBeforeIs(configs, m - 1);
      assert configs[..m][..m - 1] == configs[..m - 1];
    }
  }

  lemma {:induction false} ModulesEndToEnd(configs: seq<ModuleConfig>, parts: nat -> seq<Entry>, n: nat)
    requires Configured(configs) && n <= |configs|
    requires forall m: nat :: m < |configs| ==> parts(m) == LayerEntries(m, configs[m], configs[m].layers)
    ensures ModuleEntries(configs[..n]) == EndToEnd(parts, n)
  {
    if n > 0 {
      assert configs[..n][..n - 1] == configs[..n - 1];
      ModulesEndToEnd(configs, parts, n - 1);
    }
  }

  function PartOf(configs: seq<ModuleConfig>): nat -> seq<Entry>
    requires Configured(configs)
  {
    (m: nat) => if m < |configs| then LayerEntries(m, configs[m], configs[m].layers) else []
  }

  /** Entry `k` of the schema is the tensor of that name and shape. */
  ghost predicate Stands(configs: seq<ModuleConfig>, k: nat, texts: seq<string>, shape: seq<nat>)
    requires Configured(configs)
  {
    k < |Schema(configs)| && Schema(configs)[k].Name() == Dotted(texts) && Schema(configs)[k].shape == shape
  }

  lemma StandsAs(configs: seq<ModuleConfig>, k: nat, entries: seq<Entry>, first: seq<string>, rows: seq<Row>, i: nat)
    requires Configured(configs) && k < |Schema(configs)| && i < |entries| && Schema(configs)[k] == entries[i]
    requires Tabulated(entries, first, rows)
    ensures Stands(configs, k, first + rows[i].parts, rows[i].shape)
  {
  }

  /** A part of a part of a list. */
  lemma Nested<T>(xs: seq<T>, start: nat, whole: seq<T>, inner: nat, part: seq<T>)
    requires start + |whole| <= |xs| && xs[start..start + |whole|] == whole
    requires inner + |part| <= |whole| && whole[inner..inner + |part|] == part
    ensures start + inner + |part| <= |xs| && xs[start + inner..start + inner + |part|] == part
  {
    forall i | 0 <= i < |part| ensures xs[start + inner + i] == part[i] {
      SliceEntry(whole, inner, |part|, i);
      SliceEntry(xs, start, |whole|, inner + i);
    }
  }

  lemma InMiddle<T>(front: seq<T>, middle: seq<T>, tail: seq<T>, at: nat, part: seq<T>, i: nat)
    requires at + |part| <= |middle| && middle[at..at + |part|] == part && i < |part|
    ensures (front + middle + tail)[|front| + (at + i)] == part[i]
  {
    SliceEntry(middle, at, |part|, i);
    MiddleOf(front, middle, tail, at + i);
  }

  lemma MiddleOf<T>(a: seq<T>, b: seq<T>, c: seq<T>, k: nat)
    requires k < |b|
    ensures (a + b + c)[|a| + k] == b[k]
  {
  }

  lemma SliceEntry<T>(xs: seq<T>, at: nat, n: nat, i: nat)
    requires at + n <= |xs| && i < n
    ensures xs[at..at + n][i] == xs[at + i]
  {
  }

  lemma ModulesLength(configs: seq<ModuleConfig>, m: nat)
    requires Configured(configs) && m <= |configs|
    ensures |EndToEnd(PartOf(configs), m)| == 30 * LayersBefore(configs, m)
  {
    ModulesEndToEnd(configs, PartOf(configs), m);
    LayersBeforeIs(configs, m);
  }

  function BlocksOf(m: nat, config: ModuleConfig): nat -> seq<Entry>
    requires config.factorDen > 0
  {
    (l: nat) => BlockEntries(m, l, config)
  }

  lemma LayersLength(m: nat, config: ModuleConfig, l: nat)
    requires config.factorDen > 0
    ensures LayerEntries(m, config, l) == EndToEnd(BlocksOf(m, config), l)
    ensures |EndToEnd(BlocksOf(m, config), l)| == 30 * l
  {
    LayersEndToEnd(m, config, BlocksOf(m, config), l);
  }

  lemma ModulesAre(configs: seq<ModuleConfig>)
    requires Configured(configs)
    ensures ModuleEntries(configs) == EndToEnd(PartOf(configs), |configs|)
  {
    assert configs[..|configs|] == configs;
    ModulesEndToEnd(configs, PartOf(configs), |configs|);
  }

  lemma {:induction false} PartPlace(modules: seq<Entry>, parts: nat -> seq<Entry>, n: nat, m: nat, start: nat,
                                     whole: seq<Entry>)
    requires modules == EndToEnd(parts, n) && m < n && start == |EndToEnd(parts, m)| && whole == parts(m)
    ensures start + |whole| <= |modules| && modules[start..start + |whole|] == whole
  {
    PartAt(parts, n, m, start);
  }

  /** The entries of a module among those of all modules. */
  lemma {:induction false} ModulePlace(configs: seq<ModuleConfig>, m: nat, start: nat, modules: seq<Entry>,
                                       whole: seq<Entry>)
    requires Configured(configs) && m < |configs| && start == 30 * LayersBefore(configs, m)
    requires modules == ModuleEntries(configs) && whole == LayerEntries(m, configs[m], configs[m].layers)
    ensures start + |whole| <= |modules| && modules[start..start + |whole|] == whole
  {
    var parts := PartOf(configs);
    ModulesAre(configs);
    ModulesLength(configs, m);
    PartPlace(modules, parts, |configs|, m, start, whole);
  }

  /** The entries of a layer among those of its module. */
  lemma {:induction false} LayerPlace(m: nat, config: ModuleConfig, l: nat, whole: seq<Entry>, block: seq<Entry>)
    requires config.factorDen > 0 && l < config.layers
    requires whole == LayerEntries(m, config, config.layers) && block == BlockEntries(m, l, config)
    ensures 30 * l + |block| <= |whole| && whole[30 * l..30 * l + |block|] == block
  {
    var blocks := BlocksOf(m, config);
    LayersLength(m, config, config.layers);
    LayersLength(m, config, l);
    PartPlace(whole, blocks, config.layers, l, 30 * l, block);
  }

  lemma {:induction false} BlockInModules(configs: seq<ModuleConfig>, m: nat, l: nat, at: nat, modules: seq<Entry>,
                                          block: seq<Entry>)
    requires Configured(configs) && m < |configs| && l < configs[m].layers
    requires at == 30 * (LayersBefore(configs, m) + l)
    requires modules == ModuleEntries(configs) && block == BlockEntries(m, l, configs[m])
    ensures at + |block| <= |modules| && modules[at..at + |block|] == block
  {
    var start, whole := 30 * LayersBefore(configs, m), LayerEntries(m, configs[m], configs[m].layers);
    ModulePlace(configs, m, start, modules, whole);
    LayerPlace(m, configs[m], l, whole, block);
    Nested(modules, start, whole, 30 * l, block);
  }

  lemma SchemaParts(configs: seq<ModuleConfig>) returns (front: seq<Entry>, modules: seq<Entry>, tail: seq<Entry>)
    requires Configured(configs)
    ensures Schema(configs) == front + modules + tail && |front| == 6 && modules == ModuleEntries(configs)
  {
    front, modules, tail := FrontEntries(), ModuleEntries(configs), TailEntries();
  }

  lemma {:induction false} BlockPlace(configs: seq<ModuleConfig>, m: nat, l: nat, i: nat, k: nat, block: seq<Entry>)
    requires Configured(configs) && m < |configs| && l < configs[m].layers && i < |block|
    requires k == 6 + 30 * (LayersBefore(configs, m) + l) + i && block == BlockEntries(m, l, configs[m])
    ensures k < |Schema(configs)| && Schema(configs)[k] == block[i]
  {
    var front, modules, tail := SchemaParts(configs);
    var at := 30 * (LayersBefore(configs, m) + l);
    BlockInModules(configs, m, l, at, modules, block);
    InMiddle(front, modules, tail, at, block, i);
  }

  /** Every tensor of every layer, by its place, its name and its shape; dimensions are outputs by inputs. */
  lemma {:induction false} BlockStands(configs: seq<ModuleConfig>, m: nat, l: nat, i: nat, rows: seq<Row>)
    requires Configured(configs) && m < |configs| && l < configs[m].layers && i < 30
    requires rows == BlockRows(128 * configs[m].factorNum / configs[m].factorDen)
    ensures |rows| == 30
    ensures Stands(configs, 6 + 30 * (LayersBefore(configs, m) + l) + i, BlockTexts(m, l) + rows[i].parts,
                   rows[i].shape)
  {
    var block := BlockEntries(m, l, configs[m]);
    BlockTable(m, l, configs[m]);
    BlockPlace(configs, m, l, i, 6 + 30 * (LayersBefore(configs, m) + l) + i, block);
    StandsAs(configs, 6 + 30 * (LayersBefore(configs, m) + l) + i, block, BlockTexts(m, l), rows, i);
  }

  lemma FrontStands(configs: seq<ModuleConfig>, i: nat, front: seq<Row>)
    requires Configured(configs) && i < 6 && front == FrontRows()
    ensures |front| == 6 && Stands(configs, i, [] + front[i].parts, front[i].shape)
  {
    FrontTable();
    FirstOf(FrontEntries(), ModuleEntries(configs), TailEntries(), i);
    StandsAs(configs, i, FrontEntries(), [], front, i);
  }

  lemma FirstOf<T>(a: seq<T>, b: seq<T>, c: seq<T>, i: nat)
    requires i < |a|
    ensures (a + b + c)[i] == a[i]
  {
  }

  lemma LastOf<T>(a: seq<T>, b: seq<T>, c: seq<T>, i: nat)
    requires i < |c|
    ensures (a + b + c)[|a| + |b| + i] == c[i]
  {
  }

  lemma TailStands(configs: seq<ModuleConfig>, i: nat, k: nat, tail: seq<Row>)
    requires Configured(configs) && i < 18 && k == 6 + 30 * TotalLayers(configs) + i && tail == TailRows()
    ensures |tail| == 18 && Stands(configs, k, [] + tail[i].parts, tail[i].shape)
  {
    TailTable();
    LastOf(FrontEntries(), ModuleEntries(configs), TailEntries(), i);
    StandsAs(configs, k, TailEntries(), [], tail, i);
  }

  // ----- How names are written -----

  /** The number a string of decimal digits stands for. */
  function NumberOf(s: string): int {
    if s == [] then 0 else 10 * NumberOf(s[..|s| - 1]) + (s[|s| - 1] as int - '0' as int)
  }

  /** Numbers are written in decimal without a leading zero. */
  lemma {:induction false} DecimalReadsBack(n: nat)
    ensures NumberOf(Decimal(n)) == n && (Decimal(n)[0] == '0' ==> n == 0)
  {
    if n >= 10 {
      DecimalReadsBack(n / 10);
      var s := Decimal(n);
      assert s[..|s| - 1] == Decimal(n / 10) && s[|s| - 1] == Digit(n % 10);
    }
    DigitReadsBack(n % 10);
    if n < 10 {
      assert Decimal(n)[..0] == [];
    }
  }

  lemma DigitReadsBack(d: nat)
    requires d < 10
    ensures Digit(d) as int - '0' as int == d
  {
  }

  /** Parts are joined by single dots. */
  lemma {:induction false} DottedSplits(texts: seq<string>, i: nat)
    requires 0 < i < |texts|
    ensures Dotted(texts) == Dotted(texts[..i]) + "." + Dotted(texts[i..])
  {
    var rest := texts[1..];
    if i == 1 {
      assert texts[..1] == [texts[0]];
      assert Dotted(texts[..1]) == texts[0];
    } else {
      DottedSplits(rest, i - 1);
      assert texts[..i][1..] == rest[..i - 1] && rest[i - 1..] == texts[i..];
    }
  }

  lemma OneText(text: string)
    ensures Dotted([text]) == text
  {
  }
}
