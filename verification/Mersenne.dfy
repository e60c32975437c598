/**
 The 32-bit arithmetic of the generator, against `mersenne_twister_engine` (section 26.5.3.2 of
 ISO C++14, with the parameters of the 32-bit engine).
 */
module Mersenne {
  import opened Wrappers
  import opened BlockGenerator
  import opened RngState

  const MATRIX_A: bv32 := 0x9908_b0df
  const UMASK: bv32 := 0x8000_0000
  const LMASK: bv32 := 0x7fff_ffff

  // ----- Words and numbers -----

  /** The word with the binary digits of `v`; higher digits are shifted out. */
  function WordOf(v: nat): bv32 {
    if v == 0 then 0 else ShiftIn(WordOf(v / 2), v % 2 == 1)
  }

  function ShiftIn(w: bv32, bit: bool): bv32 {
    (w << 1) | (if bit then 1 else 0)
  }

  lemma NumberBelow(w: bv32)
    requires w as nat < 0x8000_0000
    ensures w < 0x8000_0000
  {
  }

  lemma Doubled(w: bv32)
    requires w < 0x8000_0000
    ensures (w << 1) as nat == 2 * (w as nat)
  {
  }

  lemma DoubledPlusOne(w: bv32)
    requires w < 0x8000_0000
    ensures ((w << 1) | 1) as nat == 2 * (w as nat) + 1
  {
  }

  lemma ShiftInWord(w: bv32, bit: bool)
    ensures ShiftIn(w, bit) == if bit then (w << 1) | 1 else w << 1
  {
  }

  lemma SameNumber(x: bv32, y: bv32)
    requires x == y
    ensures x as nat == y as nat
  {
  }

  lemma ShiftInNumber(w: bv32, bit: bool)
    requires w as nat < 0x8000_0000
    ensures ShiftIn(w, bit) as nat == 2 * (w as nat) + (if bit then 1 else 0)
  {
    var shifted := ShiftIn(w, bit);
    var expected := if bit then (w << 1) | 1 else w << 1;
    assert shifted == expected by { ShiftInWord(w, bit); }
    SameNumber(shifted, expected);
    NumberBelow(w);
    if bit {
      DoubledPlusOne(w);
    } else {
      Doubled(w);
    }
  }

  lemma Halves(v: nat) returns (half: nat, bit: bool)
    requires 0 < v < TWO_32
    ensures half == v / 2 < v && bit == (v % 2 == 1) && half < 0x8000_0000
    ensures v == 2 * half + (if bit then 1 else 0) && WordOf(v) == ShiftIn(WordOf(half), bit)
  {
    half, bit := v / 2, v % 2 == 1;
  }

  lemma GrownNumber(w: bv32, half: nat, bit: bool, v: nat)
    requires w as nat == half < 0x8000_0000 && v == 2 * half + (if bit then 1 else 0)
    ensures ShiftIn(w, bit) as nat == v
  {
    ShiftInNumber(w, bit);
  }

  lemma {:induction false} WordOfNumber(v: nat)
    requires v < TWO_32
    ensures WordOf(v) as nat == v
  {
    if v > 0 {
      var half, bit := Halves(v);
      WordOfNumber(half);
      GrownNumber(WordOf(half), half, bit, v);
    }
  }

  // ----- The standard's arithmetic -----

  /** The transition: `Y` joins the upper bit of `u` and the lower bits of `v`; `alpha` is `a` times `Y bitand 1`. */
  function IsoStep(far: bv32, u: bv32, v: bv32): bv32 {
    var y := (u & 0x8000_0000) | (v & 0x7fff_ffff);
    var alpha: bv32 := if y & 1 == 1 then 0x9908_b0df else 0;
    far ^ (y >> 1) ^ alpha
  }

  /** Seeding with `f` and `w - 2 = 30`: the sum is formed in full and reduced modulo `2^w`. */
  function IsoSeeding(prev: bv32, i: bv32): bv32 {
    ((0x6c07_8965 * ((prev ^ (prev >> 30)) as bv64) + (i as bv64)) % 0x1_0000_0000) as bv32
  }

  function IsoSeedStep(prev: bv32, i: nat): bv32 {
    IsoSeeding(prev, WordOf(i % 624))
  }

  /** The output function with `u = 11, d, s = 7, b, t = 15, c, l = 18`. */
  function IsoTemper(x: bv32): bv32 {
    var z1 := x ^ ((x >> 11) & 0xffff_ffff);
    var z2 := z1 ^ ((z1 << 7) & 0x9d2c_5680);
    var z3 := z2 ^ ((z2 << 15) & 0xefc6_0000);
    z3 ^ (z3 >> 18)
  }

  /** The number of the last two binary digits of an output, less its mean. */
  function LastDigits(y: bv32): real {
    (if y & 2 != 0 then 2.0 else 0.0) + (if y & 1 != 0 then 1.0 else 0.0) - 1.5
  }

  /** The seed modulo `2^w`. */
  function IsoFirst(seed: u64): bv32 {
    WordOf(seed as nat % 4_294_967_296)
  }

  const ISO: Engine<bv32> := Engine(IsoFirst, IsoSeedStep, IsoStep, IsoTemper, LastDigits)

  /** The standard's sequence, with `n = 624` and `m = 397`. */
  function IsoSequence<W>(e: Engine<W>, seed: u64, i: nat): W {
    if i == 0 then e.first(seed)
    else if i < 624 then e.seedStep(IsoSequence(e, seed, i - 1), i)
    else e.step(IsoSequence(e, seed, i - 227), IsoSequence(e, seed, i - 624), IsoSequence(e, seed, i - 623))
  }

  function IsoWord(seed: u64, i: nat): bv32 {
    IsoSequence(ISO, seed, i)
  }

  // ----- The program's arithmetic -----

  /** The low 32 bits of the seed. */
  function First(seed: u64): bv32 {
    WordOf(seed as nat % TWO_32)
  }

  function MixBits(u: bv32, v: bv32): bv32 {
    (u & UMASK) | (v & LMASK)
  }

  function Twist(u: bv32, v: bv32): bv32 {
    (MixBits(u, v) >> 1) ^ (if v & 1 != 0 then MATRIX_A else 0)
  }

  function StateStep(far: bv32, u: bv32, v: bv32): bv32 {
    far ^ Twist(u, v)
  }

  function Seeding(prev: bv32, j: bv32): bv32 {
    1_812_433_253 * (prev ^ (prev >> 30)) + j
  }

  function SeedStep(prev: bv32, j: nat): bv32 {
    Seeding(prev, WordOf(j))
  }

  function Temper(x: bv32): bv32 {
    var y := x ^ (x >> 11);
    var y := y ^ ((y << 7) & 0x9d2c_5680);
    var y := y ^ ((y << 15) & 0xefc6_0000);
    y ^ (y >> 18)
  }

  /** Identity values are the draws modulo four, less 1.5. */
  function Centred(y: bv32): real {
    var m := y % 4;
    if m == 0 then -1.5 else if m == 1 then -0.5 else if m == 2 then 0.5 else 1.5
  }

  const TORCH: Engine<bv32> := Engine(First, SeedStep, StateStep, Temper, Centred)

  // ----- The two agree -----

  lemma StepIsIso(far: bv32, u: bv32, v: bv32)
    ensures StateStep(far, u, v) == IsoStep(far, u, v)
  {
    var y := MixBits(u, v);
    assert y & 1 == v & 1;
    var low := v & 1;
    assert low == 0 || low == 1;
    var alpha: bv32 := if low == 1 then MATRIX_A else 0;
    assert far ^ (y >> 1) ^ alpha == far ^ ((y >> 1) ^ alpha);
  }

  lemma TemperIsIso(x: bv32)
    ensures Temper(x) == IsoTemper(x)
  {
    assert (x >> 11) & 0xffff_ffff == x >> 11;
  }

  lemma SeedingIsIso(prev: bv32, i: bv32)
    ensures Seeding(prev, i) == IsoSeeding(prev, i)
  {
  }

  lemma SeedStepIsIso(prev: bv32, i: nat)
    requires i < STATE_N
    ensures SeedStep(prev, i) == IsoSeedStep(prev, i)
  {
    assert i % 624 == i;
    SeedingIsIso(prev, WordOf(i));
  }

  lemma ArithmeticIsIso(seed: u64)
    ensures TORCH.first(seed) == ISO.first(seed)
    ensures forall w, u, v :: TORCH.step(w, u, v) == ISO.step(w, u, v)
    ensures forall w, j: nat :: j < STATE_N ==> TORCH.seedStep(w, j) == ISO.seedStep(w, j)
  {
    forall w, u, v ensures TORCH.step(w, u, v) == ISO.step(w, u, v) {
      StepIsIso(w, u, v);
    }
    forall w, j: nat | j < STATE_N ensures TORCH.seedStep(w, j) == ISO.seedStep(w, j) {
      SeedStepIsIso(w, j);
    }
  }

  /** The blocks of 624 words, continued 397 words behind, hold the standard's sequence. */
  lemma {:induction false} WordIsSequence<W>(e: Engine<W>, seed: u64, n: nat)
    ensures Word(e, seed, n) == IsoSequence(e, seed, n)
  {
    if n >= 624 {
      WordIsSequence(e, seed, n - 227);
      WordIsSequence(e, seed, n - 624);
      WordIsSequence(e, seed, n - 623);
    } else if n > 0 {
      WordIsSequence(e, seed, n - 1);
    }
  }

  lemma WordIsIso(seed: u64, n: nat)
    ensures Word(TORCH, seed, n) == IsoWord(seed, n)
  {
    ArithmeticIsIso(seed);
    SameArithmeticSameWords(TORCH, ISO, seed, n);
    WordIsSequence(ISO, seed, n);
  }

  /** The first words of the default seed. */
  lemma DefaultSeedWords()
    ensures Word(TORCH, 5489, 1) == 1_301_868_182 && Word(TORCH, 5489, 2) == 2_938_499_221
    ensures Word(TORCH, 5489, 3) == 2_950_281_878
  {
    SmallWords();
    DefaultSeeding();
    WordOfNumber(5489);
    var seed: u64 := 5489;
    assert Word(TORCH, seed, 0) == First(seed) == 5489;
    assert Word(TORCH, seed, 1) == SeedStep(5489, 1);
    assert Word(TORCH, seed, 2) == SeedStep(1_301_868_182, 2);
    assert Word(TORCH, seed, 3) == SeedStep(2_938_499_221, 3);
  }

  lemma SmallWords()
    ensures WordOf(1) == 1 && WordOf(2) == 2 && WordOf(3) == 3
  {
  }

  lemma DefaultSeeding()
    ensures Seeding(5489, 1) == 1_301_868_182
    ensures Seeding(1_301_868_182, 2) == 2_938_499_221
    ensures Seeding(2_938_499_221, 3) == 2_950_281_878
  {
  }

  /** For every seed, draw number `n` (from 0) is the standard's output for its word `624 + n`. */
  lemma DrawIsIso(seed: u64, n: nat)
    ensures Draw(TORCH, SeededAfter(TORCH, seed, n)).1 == IsoTemper(IsoWord(seed, 624 + n))
  {
    DrawIsWord(TORCH, seed, n);
    WordIsIso(seed, STATE_N + n);
    TemperIsIso(IsoWord(seed, STATE_N + n));
  }

  lemma CentredIs(y: bv32)
    ensures Centred(y) == LastDigits(y)
  {
  }

  lemma ValueIsIso(x: bv32)
    ensures TORCH.centre(TORCH.temper(x)) == ISO.centre(ISO.temper(x))
  {
    TemperIsIso(x);
    CentredIs(IsoTemper(x));
  }

  lemma ValuesAreIso()
    ensures forall x :: TORCH.centre(TORCH.temper(x)) == ISO.centre(ISO.temper(x))
  {
    forall x ensures TORCH.centre(TORCH.temper(x)) == ISO.centre(ISO.temper(x)) {
      ValueIsIso(x);
    }
  }

  lemma SequenceInEncodings<W(!new)>(e: Engine<W>, f: Engine<W>, seed: u64, n: nat, dim: nat, i: nat, k: nat)
    requires e.first(seed) == f.first(seed) && i < dim && k == STATE_N + n + i
    requires forall w, j: nat :: j < STATE_N ==> e.seedStep(w, j) == f.seedStep(w, j)
    requires forall w, u, v :: e.step(w, u, v) == f.step(w, u, v)
    requires forall x :: e.centre(e.temper(x)) == f.centre(f.temper(x))
    ensures EncodeFrom(e, SeededAfter(e, seed, n), dim).1[i]
        == f.centre(f.temper(IsoSequence(f, seed, k)))
  {
    SameOutputsSameEncodings(e, f, seed, n, dim, i);
    WordIsSequence(f, seed, k);
  }

  /** An encoding drawn after `n` draws holds the centred last digits of the standard's next outputs. */
  lemma EncodingIsIso(seed: u64, n: nat, dim: nat, i: nat)
    requires i < dim
    ensures EncodeFrom(TORCH, SeededAfter(TORCH, seed, n), dim).1[i]
        == ISO.centre(ISO.temper(IsoWord(seed, 624 + n + i)))
  {
    ArithmeticIsIso(seed);
    ValuesAreIso();
    SequenceInEncodings(TORCH, ISO, seed, n, dim, i, 624 + n + i);
  }

  // ----- Words as numbers -----

  function NumberOf(w: bv32): nat {
    w as nat
  }

  const WORDS: WordCodec<bv32> := WordCodec(NumberOf, WordOf)

  lemma NumberOfWord(w: bv32)
    ensures w as nat < TWO_32
  {
  }

  lemma EqualNumbers(x: bv32, y: bv32)
    requires x as nat == y as nat
    ensures x == y
  {
    assert ((x as nat) as bv32) == x && ((y as nat) as bv32) == y;
  }

  lemma WordNumberWord(w: bv32)
    ensures WORDS.toNumber(w) < TWO_32 && WORDS.ofNumber(WORDS.toNumber(w)) == w
  {
    WordBack(w);
  }

  lemma WordBack(w: bv32)
    ensures NumberOf(w) < TWO_32 && WordOf(NumberOf(w)) == w
  {
    var v := NumberOf(w);
    NumberOfWord(w);
    WordOfNumber(v);
    var x := WordOf(v);
    EqualNumbers(x, w);
  }

  lemma NumberWordNumber(v: nat)
    requires v < TWO_32
    ensures WORDS.toNumber(WORDS.ofNumber(v)) == v
  {
    WordOfNumber(v);
  }

  lemma WordsExact()
    ensures WORDS.Exact()
  {
    forall v: nat | v < TWO_32 ensures WORDS.toNumber(WORDS.ofNumber(v)) == v {
      NumberWordNumber(v);
    }
    forall w ensures WORDS.toNumber(w) < TWO_32 && WORDS.ofNumber(WORDS.toNumber(w)) == w {
      WordNumberWord(w);
    }
  }

  /**
   Whatever was drawn before, storing and restoring the generator gives the same generator, and so the same future.
   */
  lemma StoredStateIsTheSame(seed: u64, n: nat)
    ensures WORDS.Exact()
    ensures var g := SeededAfter(TORCH, seed, n);
      Storable(g) && Parsed(WORDS, Serialised(WORDS, g)) == Ok(g) && g.CursorSafe()
  {
    WordsExact();
    ReachableRoundTrip(TORCH, WORDS, seed, n);
  }
}
