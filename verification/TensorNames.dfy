/** Tensor names: dotted paths of words and numbers, and the proof that different paths are different names. */
module TensorNames {
  datatype Word =
    | Features2card | PreheadNorm | HeadAheadLogits | HeadW | HeadP | AheadLinear | WLinear | PLinear
    | RwkvModules | Blocks | TimeMixer | ChannelMixer | LayerNorm | RkvdagLerp | Bonus | Wr | Wk | Wv | Wo
    | KScaleLinear | VScaleLinear | VLoraSimple | ALoraSimple | DLoraMlp | LoraAg | LoraBg | OutGroupNorm | LerpK
    | A | BAndLamb | Weight | Bias

  datatype Part = Text(word: Word) | Number(n: nat)

  type Path = seq<Part>

  function WordText(w: Word): string {
    match w
    case Features2card => "features2card"
    case PreheadNorm => "prehead_norm"
    case HeadAheadLogits => "head_ahead_logits"
    case HeadW => "head_w"
    case HeadP => "head_p"
    case AheadLinear => "ahead_linear"
    case WLinear => "w_linear"
    case PLinear => "p_linear"
    case RwkvModules => "rwkv_modules"
    case Blocks => "blocks"
    case TimeMixer => "time_mixer"
    case ChannelMixer => "channel_mixer"
    case LayerNorm => "layer_norm"
    case RkvdagLerp => "rkvdag_lerp"
    case Bonus => "bonus"
    case Wr => "W_r"
    case Wk => "W_k"
    case Wv => "W_v"
    case Wo => "W_o"
    case KScaleLinear => "k_scale_linear"
    case VScaleLinear => "v_scale_linear"
    case VLoraSimple => "v_lora_simple"
    case ALoraSimple => "a_lora_simple"
    case DLoraMlp => "d_lora_mlp"
    case LoraAg => "lora_A_g"
    case LoraBg => "lora_B_g"
    case OutGroupNorm => "out_group_norm"
    case LerpK => "lerp_k"
    case A => "A"
    case BAndLamb => "B_and_lamb"
    case Weight => "weight"
    case Bias => "bias"
  }

  function Digit(d: nat): char
    requires d < 10
  {
    "0123456789"[d]
  }

  /** The decimal form of a number. */
  function Decimal(n: nat): (s: string)
    ensures s != []
  {
    if n < 10 then [Digit(n)] else Decimal(n / 10) + [Digit(n % 10)]
  }

  function PartText(p: Part): string {
    match p
    case Text(w) => WordText(w)
    case Number(n) => Decimal(n)
  }

  function Texts(path: Path): (r: seq<string>)
    ensures |r| == |path|
  {
    seq(|path|, i requires 0 <= i < |path| => PartText(path[i]))
  }

  function Dotted(texts: seq<string>): string {
    if texts == [] then ""
    else texts[0] + (if |texts| == 1 then "" else "." + Dotted(texts[1..]))
  }

  /** The name a path is formatted to. */
  function Render(path: Path): string {
    Dotted(Texts(path))
  }

  // ----- Different parts have different texts -----

  predicate IsDigit(c: char) {
    '0' <= c <= '9'
  }

  lemma DigitIsInjective(a: nat, b: nat)
    requires a < 10 && b < 10
    ensures IsDigit(Digit(a)) && (Digit(a) == Digit(b) ==> a == b)
  {
  }

  lemma {:induction false} DecimalIsInjective(a: nat, b: nat)
    requires Decimal(a) == Decimal(b)
    ensures a == b
  {
    var s, t := Decimal(a), Decimal(b);
    assert s[|s| - 1] == Digit(a % 10) && t[|t| - 1] == Digit(b % 10);
    DigitIsInjective(a % 10, b % 10);
    if a >= 10 && b >= 10 {
      assert s[..|s| - 1] == Decimal(a / 10) && t[..|t| - 1] == Decimal(b / 10);
      DecimalIsInjective(a / 10, b / 10);
    }
  }

  lemma {:induction false} DecimalHasDigits(n: nat)
    ensures IsDigit(Decimal(n)[0]) && '.' !in Decimal(n)
  {
    DigitIsInjective(n % 10, 0);
    if n >= 10 {
      DecimalHasDigits(n / 10);
    }
  }

  lemma WordStartsWithLetter(w: Word)
    ensures WordText(w) != [] && !IsDigit(WordText(w)[0])
  {
  }

  lemma FrontWordsHaveNoDot(w: Word)
    requires w == Features2card || w == PreheadNorm || w == HeadAheadLogits || w == HeadW
          || w == HeadP || w == AheadLinear || w == WLinear || w == PLinear
    ensures '.' !in WordText(w)
  {
  }

  lemma MixerWordsHaveNoDot(w: Word)
    requires w == RwkvModules || w == Blocks || w == TimeMixer || w == ChannelMixer
          || w == LayerNorm || w == RkvdagLerp || w == Bonus || w == Wr
    ensures '.' !in WordText(w)
  {
  }

  lemma RankWordsHaveNoDot(w: Word)
    requires w == Wk || w == Wv || w == Wo || w == KScaleLinear
          || w == VScaleLinear || w == VLoraSimple || w == ALoraSimple || w == DLoraMlp
    ensures '.' !in WordText(w)
  {
  }

  lemma LastWordsHaveNoDot(w: Word)
    requires w == LoraAg || w == LoraBg || w == OutGroupNorm || w == LerpK
          || w == A || w == BAndLamb || w == Weight || w == Bias
    ensures '.' !in WordText(w)
  {
  }

  lemma WordHasNoDot(w: Word)
    ensures '.' !in WordText(w)
  {
    match w
    case Features2card | PreheadNorm | HeadAheadLogits | HeadW | HeadP | AheadLinear | WLinear | PLinear =>
        FrontWordsHaveNoDot(w);
    case RwkvModules | Blocks | TimeMixer | ChannelMixer | LayerNorm | RkvdagLerp | Bonus | Wr =>
        MixerWordsHaveNoDot(w);
    case Wk | Wv | Wo | KScaleLinear | VScaleLinear | VLoraSimple | ALoraSimple | DLoraMlp => RankWordsHaveNoDot(w);
    case LoraAg | LoraBg | OutGroupNorm | LerpK | A | BAndLamb | Weight | Bias => LastWordsHaveNoDot(w);
  }

  /** Reads a word back from its length and one or two of its letters. */
  function WordOf(s: string): Word {
    match |s|
    case 1 => A
    case 3 => if s[2] == 'r' then Wr else if s[2] == 'k' then Wk else if s[2] == 'v' then Wv else Wo
    case 4 => Bias
    case 5 => Bonus
    case 6 => if s[5] == 's' then Blocks else if s[5] == 'w' then HeadW else if s[5] == 'p' then HeadP
        else if s[5] == 'k' then LerpK else Weight
    case 8 => if s[0] == 'w' then WLinear else if s[0] == 'p' then PLinear else if s[5] == 'A' then LoraAg else LoraBg
    case 10 => if s[0] == 't' then TimeMixer else if s[0] == 'l' then LayerNorm else if s[0] == 'd' then DLoraMlp
        else BAndLamb
    case 11 => RkvdagLerp
    case 12 => if s[0] == 'p' then PreheadNorm else if s[0] == 'a' then AheadLinear else RwkvModules
    case 13 =>
      if s[0] == 'f' then Features2card else if s[0] == 'c' then ChannelMixer else if s[0] == 'v' then VLoraSimple
          else ALoraSimple
    case 14 => if s[0] == 'k' then KScaleLinear else if s[0] == 'v' then VScaleLinear else OutGroupNorm
    case _ => HeadAheadLogits
  }

  lemma WordIsInjective(a: Word, b: Word)
    requires WordText(a) == WordText(b)
    ensures a == b
  {
    WordRead(a);
    WordRead(b);
  }

  lemma ShortWordRead(w: Word)
    requires |WordText(w)| < 10
    ensures WordOf(WordText(w)) == w
  {
  }

  lemma LongWordRead(w: Word)
    requires |WordText(w)| >= 10
    ensures WordOf(WordText(w)) == w
  {
  }

  lemma WordRead(w: Word)
    ensures WordOf(WordText(w)) == w
  {
    if |WordText(w)| < 10 {
      ShortWordRead(w);
    } else {
      LongWordRead(w);
    }
  }

  lemma PartIsInjective(a: Part, b: Part)
    requires PartText(a) == PartText(b)
    ensures a == b
  {
    match (a, b)
    case (Text(v), Text(w)) => WordIsInjective(v, w);
    case (Number(m), Number(n)) => DecimalIsInjective(m, n);
    case (Text(v), Number(n)) =>
      WordStartsWithLetter(v);
      DecimalHasDigits(n);
    case (Number(m), Text(w)) =>
      DecimalHasDigits(m);
      WordStartsWithLetter(w);
  }

  lemma PartHasNoDot(p: Part)
    ensures PartText(p) != [] && '.' !in PartText(p)
  {
    match p
    case Text(w) => WordHasNoDot(w);
    case Number(n) => DecimalHasDigits(n);
  }

  // ----- Different paths have different names -----

  /** Two dot-free heads followed by nothing or by a dot and more agree in head and rest. */
  lemma SplitIsUnique(a: string, x: string, b: string, y: string)
    requires '.' !in a && '.' !in b && a + x == b + y
    requires (x == [] || x[0] == '.') && (y == [] || y[0] == '.')
    ensures a == b && x == y
  {
    var whole := a + x;
    assert whole[..|a|] == a && whole[..|b|] == b && whole[|a|..] == x && whole[|b|..] == y;
  }

  lemma {:induction false} DottedIsInjective(a: seq<string>, b: seq<string>)
    requires a != [] && b != [] && Dotted(a) == Dotted(b)
    requires (forall i :: 0 <= i < |a| ==> '.' !in a[i]) && forall i :: 0 <= i < |b| ==> '.' !in b[i]
    ensures a == b
  {
    var x := if |a| == 1 then "" else "." + Dotted(a[1..]);
    var y := if |b| == 1 then "" else "." + Dotted(b[1..]);
    SplitIsUnique(a[0], x, b[0], y);
    if |a| > 1 && |b| > 1 {
      assert x[1..] == Dotted(a[1..]) && y[1..] == Dotted(b[1..]);
      DottedIsInjective(a[1..], b[1..]);
    }
    assert a == [a[0]] + a[1..] && b == [b[0]] + b[1..];
  }

  /** Formatting is injective on paths: different tensors never share a name. */
  lemma RenderIsInjective(a: Path, b: Path)
    requires a != [] && b != [] && Render(a) == Render(b)
    ensures a == b
  {
    forall i | 0 <= i < |a| ensures '.' !in Texts(a)[i] {
      PartHasNoDot(a[i]);
    }
    forall i | 0 <= i < |b| ensures '.' !in Texts(b)[i] {
      PartHasNoDot(b[i]);
    }
    DottedIsInjective(Texts(a), Texts(b));
    forall i | 0 <= i < |a| ensures a[i] == b[i] {
      assert Texts(a)[i] == Texts(b)[i];
      PartIsInjective(a[i], b[i]);
    }
  }
}
