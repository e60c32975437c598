/**
 The block generator of `id_encoding.rs` over any word arithmetic.

 `Word` is the infinite sequence the arithmetic defines. A `Generator` keeps one block of 624 words
 of it, and the draws read that block through the `left`/`next` cursor. Module Mersenne supplies
 the 32-bit arithmetic.
 */
module BlockGenerator {
  import opened Wrappers

  const STATE_N: nat := 624
  const STATE_M: nat := 397

  newtype u64 = x: int | 0 <= x < 0x1_0000_0000_0000_0000

  /** The arithmetic on words: seeding, the recurrence on `(x[i+m], x[i], x[i+1])`, and the output. */
  datatype Engine<!W> = Engine(
    first: u64 -> W,
    seedStep: (W, nat) -> W,
    step: (W, W, W) -> W,
    temper: W -> W,
    centre: W -> real)

  // ----- The infinite sequence -----

  /** Word `n` of the sequence for a seed, before tempering. */
  function Word<W>(e: Engine<W>, seed: u64, n: nat): W
  {
    if n == 0 then e.first(seed)
    else if n < STATE_N then e.seedStep(Word(e, seed, n - 1), n)
    else e.step(Word(e, seed, n - STATE_N + STATE_M), Word(e, seed, n - STATE_N), Word(e, seed, n - STATE_N + 1))
  }

  /** A block continued by the recurrence. */
  function Extended<W>(e: Engine<W>, block: seq<W>, n: nat): W
    requires |block| == STATE_N
  {
    if n < STATE_N then block[n]
    else e.step(Extended(e, block, n - STATE_N + STATE_M), Extended(e, block, n - STATE_N),
                Extended(e, block, n - STATE_N + 1))
  }

  function NextBlock<W>(e: Engine<W>, block: seq<W>): (next: seq<W>)
    requires |block| == STATE_N
    ensures |next| == STATE_N
  {
    seq(STATE_N, i requires 0 <= i < STATE_N => Extended(e, block, STATE_N + i))
  }

  /** Block `b` of the sequence for a seed. */
  function WordBlock<W>(e: Engine<W>, seed: u64, b: nat): (block: seq<W>)
    ensures |block| == STATE_N
  {
    seq(STATE_N, i requires 0 <= i < STATE_N => Word(e, seed, STATE_N * b + i))
  }

  /** Two arithmetics that agree on every argument define the same sequence. */
  lemma {:induction false} SameArithmeticSameWords<W(!new)>(e: Engine<W>, f: Engine<W>, seed: u64, n: nat)
    requires e.first(seed) == f.first(seed)
    requires forall w, j: nat :: j < STATE_N ==> e.seedStep(w, j) == f.seedStep(w, j)
    requires forall w, u, v :: e.step(w, u, v) == f.step(w, u, v)
    ensures Word(e, seed, n) == Word(f, seed, n)
  {
    if n == 0 {
    } else if n < STATE_N {
      SameArithmeticSameWords(e, f, seed, n - 1);
    } else {
      SameArithmeticSameWords(e, f, seed, n - STATE_N + STATE_M);
      SameArithmeticSameWords(e, f, seed, n - STATE_N);
      SameArithmeticSameWords(e, f, seed, n - STATE_N + 1);
    }
  }

  // ----- The generator as a value -----

  /** `left` counts the draws, the coming one included, before the block is rewritten. */
  datatype Generator<W> = Generator(seed: u64, left: nat, next: nat, state: seq<W>) {
    ghost predicate Sized() {
      |state| == STATE_N
    }

    /** The cursors from which no draw ever fails. */
    predicate CursorSafe() {
      left == 1 || (1 <= left && left + next <= STATE_N + 1)
    }
  }

  function Seeded<W>(e: Engine<W>, seed: u64): (g: Generator<W>)
    ensures g.Sized() && g.CursorSafe()
  {
    Generator(seed, 1, 0, WordBlock(e, seed, 0))
  }

  /** One draw; `None` where the program's subtraction or its index would fail. */
  function TryDraw<W>(e: Engine<W>, g: Generator<W>): (r: Option<(Generator<W>, W)>)
    requires g.Sized()
    ensures r.Some? ==> r.value.0.Sized()
  {
    if g.left == 0 then None
    else
      var h := if g.left == 1 then Generator(g.seed, STATE_N, 0, NextBlock(e, g.state)) else g.(left := g.left - 1);
      if h.next < STATE_N then Some((h.(next := h.next + 1), e.temper(h.state[h.next]))) else None
  }

  /** A draw from a safe cursor succeeds and leaves a safe cursor. */
  function Draw<W>(e: Engine<W>, g: Generator<W>): (r: (Generator<W>, W))
    requires g.Sized() && g.CursorSafe()
    ensures r.0.Sized() && r.0.CursorSafe() && TryDraw(e, g) == Some(r)
  {
    TryDraw(e, g).value
  }

  function TryDrawMany<W>(e: Engine<W>, g: Generator<W>, n: nat): (r: Option<Generator<W>>)
    requires g.Sized()
    ensures r.Some? ==> r.value.Sized()
    decreases n
  {
    if n == 0 then Some(g)
    else match TryDraw(e, g)
      case None => None
      case Some((h, _)) => TryDrawMany(e, h, n - 1)
  }

  /** The generator after `n` draws from a fresh seed. */
  function SeededAfter<W>(e: Engine<W>, seed: u64, n: nat): (g: Generator<W>)
    ensures g.Sized() && g.CursorSafe()
  {
    if n == 0 then Seeded(e, seed) else Draw(e, SeededAfter(e, seed, n - 1)).0
  }

  /** An identity encoding: `dim` draws, each mapped to a centred value. */
  function EncodeFrom<W>(e: Engine<W>, g: Generator<W>, dim: nat): (r: (Generator<W>, seq<real>))
    requires g.Sized() && g.CursorSafe()
    ensures r.0.Sized() && r.0.CursorSafe() && |r.1| == dim
  {
    if dim == 0 then (g, [])
    else
      var (h, values) := EncodeFrom(e, g, dim - 1);
      var (h', y) := Draw(e, h);
      (h', values + [e.centre(y)])
  }

  // ----- Every draw is a word of the sequence -----

  /** A block that agrees with the sequence from `start` on is continued by it. */
  lemma {:induction false} ExtendedIsWord<W>(e: Engine<W>, seed: u64, block: seq<W>, start: nat, n: nat)
    requires |block| == STATE_N && forall i :: 0 <= i < STATE_N ==> block[i] == Word(e, seed, start + i)
    ensures Extended(e, block, n) == Word(e, seed, start + n)
  {
    if n >= STATE_N {
      var k := n - STATE_N;
      ExtendedIsWord(e, seed, block, start, k + STATE_M);
      ExtendedIsWord(e, seed, block, start, k);
      ExtendedIsWord(e, seed, block, start, k + 1);
      WordStep(e, seed, start + k);
      ExtendedStep(e, block, k);
    }
  }

  lemma ExtendedStep<W>(e: Engine<W>, block: seq<W>, k: nat)
    requires |block| == STATE_N
    ensures Extended(e, block, k + STATE_N)
      == e.step(Extended(e, block, k + STATE_M), Extended(e, block, k), Extended(e, block, k + 1))
  {
  }

  lemma WordStep<W>(e: Engine<W>, seed: u64, k: nat)
    ensures Word(e, seed, k + STATE_N) == e.step(Word(e, seed, k + STATE_M), Word(e, seed, k), Word(e, seed, k + 1))
  {
  }

  lemma WordBlockWords<W>(e: Engine<W>, seed: u64, b: nat)
    ensures forall i :: 0 <= i < STATE_N ==> WordBlock(e, seed, b)[i] == Word(e, seed, STATE_N * b + i)
  {
  }

  lemma NextBlockWord<W>(e: Engine<W>, seed: u64, block: seq<W>, start: nat, i: nat)
    requires |block| == STATE_N && i < STATE_N
    requires forall k :: 0 <= k < STATE_N ==> block[k] == Word(e, seed, start + k)
    ensures NextBlock(e, block)[i] == Word(e, seed, start + (STATE_N + i))
  {
    ExtendedIsWord(e, seed, block, start, STATE_N + i);
  }

  lemma NextBlockIsWords<W>(e: Engine<W>, seed: u64, b: nat)
    ensures NextBlock(e, WordBlock(e, seed, b)) == WordBlock(e, seed, b + 1)
  {
    var got, want := NextBlock(e, WordBlock(e, seed, b)), WordBlock(e, seed, b + 1);
    WordBlockWords(e, seed, b);
    forall i | 0 <= i < STATE_N ensures got[i] == want[i] {
      NextBlockWord(e, seed, WordBlock(e, seed, b), STATE_N * b, i);
      assert STATE_N * b + (STATE_N + i) == STATE_N * (b + 1) + i;
    }
  }

  /** What a draw does to the cursor and the block. */
  lemma DrawMoves<W>(e: Engine<W>, g: Generator<W>)
    requires g.Sized() && g.CursorSafe()
    ensures var h := Draw(e, g).0;
      && h.seed == g.seed
      && (g.left == 1 ==> h.left == STATE_N && h.next == 1 && h.state == NextBlock(e, g.state))
      && (g.left != 1 ==> h.left == g.left - 1 && h.next == g.next + 1 && h.state == g.state)
  {
  }

  lemma CursorMoves(k: nat)
    ensures k % STATE_N == STATE_N - 1 ==> (k + 1) / STATE_N == k / STATE_N + 1 && (k + 1) % STATE_N == 0
    ensures k % STATE_N != STATE_N - 1 ==> (k + 1) / STATE_N == k / STATE_N && (k + 1) % STATE_N == k % STATE_N + 1
  {
  }

  /** The cursor stands behind word `r` of block `b + 1`. */
  ghost predicate StandsAt<W>(e: Engine<W>, seed: u64, g: Generator<W>, b: nat, r: nat) {
    && g.seed == seed && 1 <= g.left <= STATE_N && g.next == r + 1 && g.left + g.next == STATE_N + 1
    && g.state == WordBlock(e, seed, b + 1)
  }

  lemma FirstDrawMoves<W>(e: Engine<W>, seed: u64)
    ensures StandsAt(e, seed, Draw(e, Seeded(e, seed)).0, 0, 0)
  {
    DrawMoves(e, Seeded(e, seed));
    NextBlockIsWords(e, seed, 0);
  }

  lemma LaterDrawMoves<W>(e: Engine<W>, seed: u64, g: Generator<W>, b: nat, r: nat, nextB: nat, nextR: nat)
    requires g.Sized() && g.CursorSafe() && StandsAt(e, seed, g, b, r)
    requires r == STATE_N - 1 ==> nextB == b + 1 && nextR == 0
    requires r != STATE_N - 1 ==> nextB == b && nextR == r + 1
    ensures StandsAt(e, seed, Draw(e, g).0, nextB, nextR)
  {
    DrawMoves(e, g);
    if g.left == 1 {
      NextBlockIsWords(e, seed, b + 1);
    }
  }

  lemma {:induction false} DrawnStandsAt<W>(e: Engine<W>, seed: u64, k: nat)
    ensures StandsAt(e, seed, SeededAfter(e, seed, k + 1), k / STATE_N, k % STATE_N)
  {
    if k == 0 {
      FirstDrawMoves(e, seed);
      assert SeededAfter(e, seed, k) == Seeded(e, seed);
    } else {
      DrawnStandsAt(e, seed, k - 1);
      CursorMoves(k - 1);
      LaterDrawMoves(e, seed, SeededAfter(e, seed, k), (k - 1) / STATE_N, (k - 1) % STATE_N, k / STATE_N, k % STATE_N);
    }
  }

  /**
   After `n` draws the cursor is `(1, 0)` on block 0 (no draw yet), or stands in block
   `(n - 1) / 624 + 1` with `left + next == 625`.
   */
  lemma ReachableShape<W>(e: Engine<W>, seed: u64, n: nat)
    ensures var g := SeededAfter(e, seed, n);
            && g.seed == seed
            && 1 <= g.left <= STATE_N
            && (n == 0 ==> g.left == 1 && g.next == 0 && g.state == WordBlock(e, seed, 0))
            && (n > 0 ==> && g.next == (n - 1) % STATE_N + 1
                          && g.left + g.next == STATE_N + 1
                          && g.state == WordBlock(e, seed, (n - 1) / STATE_N + 1))
  {
    if n > 0 {
      DrawnStandsAt(e, seed, n - 1);
    }
  }

  /** A draw returns the word it leaves just behind the cursor. */
  lemma DrawReads<W>(e: Engine<W>, g: Generator<W>)
    requires g.Sized() && g.CursorSafe()
    ensures var (h, y) := Draw(e, g);
            1 <= h.next <= STATE_N && y == e.temper(h.state[h.next - 1])
  {
  }

  /** A draw that leaves the cursor where draw `n` leaves it has returned word `624 + n`. */
  lemma DrawnIsWord<W>(e: Engine<W>, seed: u64, n: nat, before: Generator<W>)
    requires before.Sized() && before.CursorSafe()
    requires Draw(e, before).0.next == n % STATE_N + 1
    requires Draw(e, before).0.state == WordBlock(e, seed, n / STATE_N + 1)
    ensures Draw(e, before).1 == e.temper(Word(e, seed, STATE_N + n))
  {
    var b, r := n / STATE_N, n % STATE_N;
    DrawReads(e, before);
    WordBlockWords(e, seed, b + 1);
    assert STATE_N * (b + 1) + r == STATE_N + n;
  }

  /** Draw number `n` (from 0) of any seed is the tempered word `624 + n`. */
  lemma DrawIsWord<W>(e: Engine<W>, seed: u64, n: nat)
    ensures Draw(e, SeededAfter(e, seed, n)).1 == e.temper(Word(e, seed, STATE_N + n))
  {
    ReachableShape(e, seed, n + 1);
    DrawnIsWord(e, seed, n, SeededAfter(e, seed, n));
  }

  lemma EncodingReaches<W>(e: Engine<W>, seed: u64, g: Generator<W>, dim: nat, m: nat)
    requires g.Sized() && g.CursorSafe() && dim > 0 && m > 0
    requires EncodeFrom(e, g, dim - 1).0 == SeededAfter(e, seed, m - 1)
    ensures EncodeFrom(e, g, dim).0 == SeededAfter(e, seed, m)
  {
  }

  lemma {:induction false} EncodingReachesAfter<W>(e: Engine<W>, seed: u64, g: Generator<W>, n: nat, dim: nat, m: nat)
    requires g == SeededAfter(e, seed, n) && m == n + dim
    ensures EncodeFrom(e, g, dim).0 == SeededAfter(e, seed, m)
  {
    if dim > 0 {
      EncodingReachesAfter(e, seed, g, n, dim - 1, m - 1);
      EncodingReaches(e, seed, g, dim, m);
    }
  }

  lemma EncodingAdvances<W>(e: Engine<W>, seed: u64, n: nat, dim: nat)
    ensures EncodeFrom(e, SeededAfter(e, seed, n), dim).0 == SeededAfter(e, seed, n + dim)
  {
    EncodingReachesAfter(e, seed, SeededAfter(e, seed, n), n, dim, n + dim);
  }

  /** Value `i` of an encoding is the draw that follows the first `i`. */
  lemma {:induction false} EncodingValue<W>(e: Engine<W>, g: Generator<W>, dim: nat, i: nat)
    requires g.Sized() && g.CursorSafe() && i < dim
    ensures EncodeFrom(e, g, dim).1[i] == e.centre(Draw(e, EncodeFrom(e, g, i).0).1)
  {
    if i < dim - 1 {
      EncodingValue(e, g, dim - 1, i);
    }
  }

  /** Encodings read the sequence without a gap: value `i` comes from draw `n + i`. */
  lemma EncodingIsWords<W>(e: Engine<W>, seed: u64, n: nat, dim: nat, i: nat)
    requires i < dim
    ensures EncodeFrom(e, SeededAfter(e, seed, n), dim).1[i] == e.centre(e.temper(Word(e, seed, STATE_N + n + i)))
  {
    EncodingValue(e, SeededAfter(e, seed, n), dim, i);
    EncodingAdvances(e, seed, n, i);
    DrawIsWord(e, seed, n + i);
  }

  /** Arithmetics that agree up to their outputs give the same encodings. */
  lemma SameOutputsSameEncodings<W(!new)>(e: Engine<W>, f: Engine<W>, seed: u64, n: nat, dim: nat, i: nat)
    requires e.first(seed) == f.first(seed) && i < dim
    requires forall w, j: nat :: j < STATE_N ==> e.seedStep(w, j) == f.seedStep(w, j)
    requires forall w, u, v :: e.step(w, u, v) == f.step(w, u, v)
    requires forall x :: e.centre(e.temper(x)) == f.centre(f.temper(x))
    ensures EncodeFrom(e, SeededAfter(e, seed, n), dim).1[i] == f.centre(f.temper(Word(f, seed, STATE_N + n + i)))
  {
    EncodingIsWords(e, seed, n, dim, i);
    SameArithmeticSameWords(e, f, seed, STATE_N + n + i);
  }

  /** Exactly the safe cursors can be drawn from for ever. */
  lemma DrawsForeverIffSafe<W>(e: Engine<W>, g: Generator<W>)
    requires g.Sized()
    ensures (forall n :: TryDrawMany(e, g, n).Some?) <==> g.CursorSafe()
  {
    if g.CursorSafe() {
      forall n ensures TryDrawMany(e, g, n).Some? {
        SafeNeverFails(e, g, n);
      }
    } else {
      UnsafeFails(e, g, g.left + 1);
      assert TryDrawMany(e, g, g.left + 1) == None;
    }
  }

  lemma {:induction false} SafeNeverFails<W>(e: Engine<W>, g: Generator<W>, n: nat)
    requires g.Sized() && g.CursorSafe()
    ensures TryDrawMany(e, g, n).Some?
    decreases n
  {
    if n > 0 {
      SafeNeverFails(e, Draw(e, g).0, n - 1);
    }
  }

  lemma {:induction false} UnsafeFails<W>(e: Engine<W>, g: Generator<W>, n: nat)
    requires g.Sized() && !g.CursorSafe() && n > g.left
    ensures TryDrawMany(e, g, n) == None
    decreases n
  {
    match TryDraw(e, g)
    case None =>
    case Some((h, _)) => UnsafeFails(e, h, n - 1);
  }

  // ----- The in-place algorithms -----

  method SeedWords<W(0)>(e: Engine<W>, seed: u64) returns (words: array<W>)
    ensures fresh(words) && words[..] == WordBlock(e, seed, 0)
  {
    words := new W[STATE_N];
    words[0] := e.first(seed);
    for j := 1 to STATE_N
      invariant forall i :: 0 <= i < j ==> words[i] == Word(e, seed, i)
    {
      words[j] := e.seedStep(words[j - 1], j);
    }
  }

  /** The cells before `i` are rewritten, the others still those of the old block. */
  ghost predicate Rewritten<W>(e: Engine<W>, state: seq<W>, block: seq<W>, i: nat)
    requires |state| == |block| == STATE_N
  {
    && (forall k :: 0 <= k < i && k < STATE_N ==> state[k] == Extended(e, block, STATE_N + k))
    && forall k :: i <= k < STATE_N ==> state[k] == block[k]
  }

  /** One cell, from a far word and the word after it: each old or already rewritten, by its index. */
  method RewriteCell<W>(e: Engine<W>, state: array<W>, i: nat, far: nat, after: nat, ghost block: seq<W>)
    requires state.Length == |block| == STATE_N && i < STATE_N && far < STATE_N && after < STATE_N
    requires Rewritten(e, state[..], block, i)
    requires far == i + STATE_M || far == i + STATE_M - STATE_N
    requires after == i + 1 || after == i + 1 - STATE_N
    modifies state
    ensures Rewritten(e, state[..], block, i + 1)
  {
    assert state[..][far] == Extended(e, block, i + STATE_M);
    assert state[..][after] == Extended(e, block, i + 1);
    assert state[..][i] == Extended(e, block, i);
    state[i] := e.step(state[far], state[i], state[after]);
  }

  /** Rewrites the block in place: the later loop and the last word mix old and rewritten cells. */
  method RewriteBlock<W>(e: Engine<W>, state: array<W>)
    requires state.Length == STATE_N
    modifies state
    ensures state[..] == NextBlock(e, old(state[..]))
  {
    ghost var block := state[..];
    for i := 0 to STATE_N - STATE_M
      invariant Rewritten(e, state[..], block, i)
    {
      RewriteCell(e, state, i, i + STATE_M, i + 1, block);
    }
    for i := STATE_N - STATE_M to STATE_N - 1
      invariant Rewritten(e, state[..], block, i)
    {
      RewriteCell(e, state, i, i + STATE_M - STATE_N, i + 1, block);
    }
    RewriteCell(e, state, STATE_N - 1, STATE_M - 1, 0, block);
  }

  /** The generator as the program keeps it; `engine` is the word arithmetic in use. */
  class BlockRng<W(0)> {
    const engine: Engine<W>
    var seed: u64
    var left: nat
    var next: nat
    const state: array<W>

    ghost predicate Valid()
      reads this, state
    {
      state.Length == STATE_N && Value().CursorSafe()
    }

    ghost function Value(): (g: Generator<W>)
      reads this, state
    {
      Generator(seed, left, next, state[..])
    }

    constructor SeedFromU64(engine: Engine<W>, seed: u64)
      ensures Valid() && fresh(state) && this.engine == engine
      ensures Value() == Seeded(engine, seed)
    {
      var words := SeedWords(engine, seed);
      this.engine, this.seed, left, next, state := engine, seed, 1, 0, words;
    }

    constructor FromParts(engine: Engine<W>, seed: u64, left: nat, next: nat, words: array<W>)
      requires words.Length == STATE_N
      ensures this.engine == engine && state == words
      ensures Value() == Generator(seed, left, next, words[..])
    {
      this.engine, this.seed, this.left, this.next, state := engine, seed, left, next, words;
    }

    /** A generator of its own with the same value. */
    constructor Clone(other: BlockRng<W>)
      requires other.Valid()
      ensures Valid() && fresh(state) && engine == other.engine
      ensures Value() == other.Value()
    {
      var words := new W[STATE_N];
      for i := 0 to STATE_N
        invariant forall k :: 0 <= k < i ==> words[k] == other.state[k]
      {
        words[i] := other.state[i];
      }
      engine, seed, left, next, state := other.engine, other.seed, other.left, other.next, words;
      assert words[..] == other.state[..];
    }

    method NextState()
      requires state.Length == STATE_N
      modifies this, state
      ensures seed == old(seed) && left == STATE_N && next == 0
      ensures state[..] == NextBlock(engine, old(state[..]))
    {
      left := STATE_N;
      next := 0;
      RewriteBlock(engine, state);
    }

    method RandomU32() returns (y: W)
      requires Valid()
      modifies this, state
      ensures Valid()
      ensures (Value(), y) == Draw(engine, old(Value()))
    {
      left := left - 1;
      if left == 0 {
        NextState();
      }
      y := state[next];
      next := next + 1;
      y := engine.temper(y);
    }

    method IdEncoding(dim: nat) returns (values: seq<real>)
      requires Valid()
      modifies this, state
      ensures Valid()
      ensures (Value(), values) == EncodeFrom(engine, old(Value()), dim)
    {
      values := [];
      for i := 0 to dim
        invariant Valid()
        invariant (Value(), values) == EncodeFrom(engine, old(Value()), i)
      {
        var y := RandomU32();
        values := values + [engine.centre(y)];
      }
    }
  }
}
