/**
 The binary state of the generator: 632 eight-byte words, namely the seed, a header word holding
 `left`, the cursor `next`, the 624 state words and five zeros.
 */
module RngState {
  import opened Wrappers
  import opened LittleEndian
  import opened BlockGenerator

  const STATE_WORDS: nat := 632
  const STATE_BYTES: nat := 8 * STATE_WORDS
  const HEADER_WORDS: nat := 3
  const TWO_32: nat := 0x1_0000_0000

  datatype StateError = WrongLength | WrongHeader | LeftRange | NextRange | WordRange(index: nat) | NonZeroTail

  /** The 32-bit words of a generator as numbers below `2^32`. */
  datatype WordCodec<!W(!new)> = WordCodec(toNumber: W -> nat, ofNumber: nat -> W) {
    ghost predicate Exact() {
      && (forall w :: toNumber(w) < TWO_32 && ofNumber(toNumber(w)) == w)
      && (forall v: nat :: v < TWO_32 ==> toNumber(ofNumber(v)) == v)
    }
  }

  /** The field ranges of every generator the program builds. */
  ghost predicate Storable<W>(g: Generator<W>) {
    g.Sized() && g.left <= STATE_N && g.next <= STATE_N
  }

  function StateValues<W(!new)>(c: WordCodec<W>, g: Generator<W>): (values: seq<nat>)
    requires c.Exact() && Storable(g)
    ensures |values| == STATE_WORDS && forall k :: 0 <= k < STATE_WORDS ==> values[k] < TWO_64
  {
    [g.seed as nat, TWO_32 + g.left, g.next]
    + seq(STATE_N, k requires 0 <= k < |g.state| => c.toNumber(g.state[k]))
    + [0, 0, 0, 0, 0]
  }

  function FlatBytes(values: seq<nat>): (bytes: seq<byte>)
    requires forall k :: 0 <= k < |values| ==> values[k] < TWO_64
    ensures |bytes| == 8 * |values|
  {
    if values == [] then [] else FlatBytes(values[..|values| - 1]) + U64Bytes(values[|values| - 1])
  }

  function Serialised<W(!new)>(c: WordCodec<W>, g: Generator<W>): (bytes: seq<byte>)
    requires c.Exact() && Storable(g)
    ensures |bytes| == STATE_BYTES
  {
    FlatBytes(StateValues(c, g))
  }

  function ValueAt(bytes: seq<byte>, k: nat): (v: nat)
    requires 8 * k + 8 <= |bytes|
    ensures v < TWO_64
  {
    ReadU64(bytes[8 * k..8 * k + 8])
  }

  function StateNumber(bytes: seq<byte>, i: nat): (v: nat)
    requires |bytes| == STATE_BYTES && i < STATE_N
    ensures v < TWO_64
  {
    ValueAt(bytes, HEADER_WORDS + i)
  }

  /** The first state word that does not fit 32 bits, or 624. */
  function FirstWideWord(bytes: seq<byte>, k: nat): (index: nat)
    requires |bytes| == STATE_BYTES && k <= STATE_N
    ensures k <= index <= STATE_N
    ensures forall i :: k <= i < index ==> StateNumber(bytes, i) < TWO_32
    ensures index < STATE_N ==> StateNumber(bytes, index) >= TWO_32
    decreases STATE_N - k
  {
    if k == STATE_N || StateNumber(bytes, k) >= TWO_32 then k else FirstWideWord(bytes, k + 1)
  }

  predicate ZeroTail(bytes: seq<byte>)
    requires |bytes| == STATE_BYTES
  {
    forall k :: HEADER_WORDS + STATE_N <= k < STATE_WORDS ==> ValueAt(bytes, k) == 0
  }

  /** Why the parser rejects the bytes, its checks in order. */
  function Rejection(bytes: seq<byte>): (r: Option<StateError>)
    ensures r == None ==> |bytes| == STATE_BYTES
  {
    if |bytes| != STATE_BYTES then Some(WrongLength)
    else if ValueAt(bytes, 1) / TWO_32 != 1 then Some(WrongHeader)
    else if ValueAt(bytes, 1) % TWO_32 > STATE_N then Some(LeftRange)
    else if ValueAt(bytes, 2) > STATE_N then Some(NextRange)
    else BodyRejection(bytes)
  }

  function BodyRejection(bytes: seq<byte>): Option<StateError>
    requires |bytes| == STATE_BYTES
  {
    if FirstWideWord(bytes, 0) < STATE_N then Some(WordRange(FirstWideWord(bytes, 0)))
    else if !ZeroTail(bytes) then Some(NonZeroTail)
    else None
  }

  function Decoded<W(!new)>(c: WordCodec<W>, bytes: seq<byte>): (g: Generator<W>)
    requires |bytes| == STATE_BYTES
    ensures g.Sized()
  {
    Generator(
      ValueAt(bytes, 0) as u64, ValueAt(bytes, 1) % TWO_32, ValueAt(bytes, 2),
      seq(STATE_N, k requires 0 <= k < STATE_N => c.ofNumber(StateNumber(bytes, k))))
  }

  function Parsed<W(!new)>(c: WordCodec<W>, bytes: seq<byte>): (r: Result<Generator<W>, StateError>)
  {
    match Rejection(bytes)
    case Some(error) => Err(error)
    case None => Ok(Decoded(c, bytes))
  }

  // ----- Serialising and parsing undo each other -----

  lemma {:induction false} FlatBytesAt(values: seq<nat>, k: nat)
    requires forall j :: 0 <= j < |values| ==> values[j] < TWO_64
    requires k < |values|
    ensures FlatBytes(values)[8 * k..8 * k + 8] == U64Bytes(values[k])
    ensures ValueAt(FlatBytes(values), k) == values[k]
  {
    var last := |values| - 1;
    if k < last {
      FlatBytesAt(values[..last], k);
      assert FlatBytes(values)[8 * k..8 * k + 8] == FlatBytes(values[..last])[8 * k..8 * k + 8];
    } else {
      assert FlatBytes(values)[8 * k..8 * k + 8] == U64Bytes(values[k]);
    }
  }

  /** The values are those the bytes hold. */
  ghost predicate ValuesOf(bytes: seq<byte>, values: seq<nat>) {
    |bytes| == 8 * |values| && forall k :: 0 <= k < |values| ==> values[k] == ValueAt(bytes, k)
  }

  lemma ValueOfFront(bytes: seq<byte>, end: nat, k: nat)
    requires 8 * k + 8 <= end <= |bytes|
    ensures ValueAt(bytes[..end], k) == ValueAt(bytes, k)
  {
    assert bytes[..end][8 * k..8 * k + 8] == bytes[8 * k..8 * k + 8];
  }

  lemma ValuesOfFront(bytes: seq<byte>, values: seq<nat>, last: nat)
    requires ValuesOf(bytes, values) && last < |values|
    ensures ValuesOf(bytes[..8 * last], values[..last])
  {
    forall k | 0 <= k < last ensures values[..last][k] == ValueAt(bytes[..8 * last], k) {
      ValueOfFront(bytes, 8 * last, k);
    }
  }

  lemma BytesOfLast(bytes: seq<byte>, last: nat)
    requires 8 * last + 8 == |bytes|
    ensures bytes[..8 * last] + U64Bytes(ValueAt(bytes, last)) == bytes
  {
    U64BytesRead(bytes[8 * last..8 * last + 8]);
    assert bytes[8 * last..] == bytes[8 * last..8 * last + 8];
    assert bytes[..8 * last] + bytes[8 * last..] == bytes;
  }

  lemma {:induction false} FlatBytesOfValues(bytes: seq<byte>, values: seq<nat>)
    requires ValuesOf(bytes, values)
    requires forall k :: 0 <= k < |values| ==> values[k] < TWO_64
    ensures FlatBytes(values) == bytes
  {
    if values != [] {
      var last := |values| - 1;
      ValuesOfFront(bytes, values, last);
      FlatBytesOfValues(bytes[..8 * last], values[..last]);
      BytesOfLast(bytes, last);
    }
  }

  lemma SerialisedValue<W(!new)>(c: WordCodec<W>, g: Generator<W>, k: nat)
    requires c.Exact() && Storable(g) && k < STATE_WORDS
    ensures ValueAt(Serialised(c, g), k) == StateValues(c, g)[k]
  {
    FlatBytesAt(StateValues(c, g), k);
  }

  lemma SerialisedWord<W(!new)>(c: WordCodec<W>, g: Generator<W>, k: nat)
    requires c.Exact() && Storable(g) && k < STATE_N
    ensures StateNumber(Serialised(c, g), k) == c.toNumber(g.state[k])
  {
    SerialisedValue(c, g, HEADER_WORDS + k);
  }

  lemma SerialisedAccepted<W(!new)>(c: WordCodec<W>, g: Generator<W>)
    requires c.Exact() && Storable(g)
    ensures Rejection(Serialised(c, g)) == None
  {
    var bytes := Serialised(c, g);
    SerialisedValue(c, g, 1);
    SerialisedValue(c, g, 2);
    assert FirstWideWord(bytes, 0) == STATE_N by {
      var index := FirstWideWord(bytes, 0);
      if index < STATE_N {
        SerialisedWord(c, g, index);
      }
    }
    forall k | HEADER_WORDS + STATE_N <= k < STATE_WORDS ensures ValueAt(bytes, k) == 0 {
      SerialisedValue(c, g, k);
    }
  }

  /** Parsing what was serialised gives the generator back. */
  lemma ParseSerialised<W(!new)>(c: WordCodec<W>, g: Generator<W>)
    requires c.Exact() && Storable(g)
    ensures Parsed(c, Serialised(c, g)) == Ok(g)
  {
    SerialisedAccepted(c, g);
    SerialisedHeader(c, g);
    SerialisedWords(c, g);
  }

  lemma SerialisedHeader<W(!new)>(c: WordCodec<W>, g: Generator<W>)
    requires c.Exact() && Storable(g)
    ensures var d := Decoded(c, Serialised(c, g));
      d.seed == g.seed && d.left == g.left && d.next == g.next
  {
    SerialisedValue(c, g, 0);
    SerialisedValue(c, g, 1);
    SerialisedValue(c, g, 2);
  }

  lemma SerialisedWords<W(!new)>(c: WordCodec<W>, g: Generator<W>)
    requires c.Exact() && Storable(g)
    ensures Decoded(c, Serialised(c, g)).state == g.state
  {
    var bytes := Serialised(c, g);
    forall k | 0 <= k < STATE_N ensures c.ofNumber(StateNumber(bytes, k)) == g.state[k] {
      SerialisedWord(c, g, k);
    }
  }

  /** Serialising what was parsed gives the same bytes: every accepted state has one encoding. */
  lemma SerialiseParsed<W(!new)>(c: WordCodec<W>, bytes: seq<byte>)
    requires c.Exact() && Parsed(c, bytes).Ok?
    ensures Storable(Parsed(c, bytes).value)
    ensures Serialised(c, Parsed(c, bytes).value) == bytes
  {
    var g := Parsed(c, bytes).value;
    var values := StateValues(c, g);
    forall k | 0 <= k < STATE_WORDS ensures values[k] == ValueAt(bytes, k) {
      if HEADER_WORDS <= k < HEADER_WORDS + STATE_N {
        assert values[k] == c.toNumber(g.state[k - HEADER_WORDS]);
      }
    }
    FlatBytesOfValues(bytes, values);
  }

  /** A generator saved after any number of draws comes back with the same future. */
  lemma ReachableRoundTrip<W(!new)>(e: Engine<W>, c: WordCodec<W>, seed: u64, n: nat)
    requires c.Exact()
    ensures var g := SeededAfter(e, seed, n);
            Storable(g) && Parsed(c, Serialised(c, g)) == Ok(g) && g.CursorSafe()
  {
    ReachableShape(e, seed, n);
    ParseSerialised(c, SeededAfter(e, seed, n));
  }

  /** The parser also accepts cursors from which a draw fails. */
  lemma ParserAcceptsUnsafeCursor<W(!new)>(e: Engine<W>, c: WordCodec<W>, seed: u64)
    requires c.Exact()
    ensures exists g, bytes :: Parsed(c, bytes) == Ok(g) && !g.CursorSafe() && TryDraw(e, g) == None
  {
    var g := Seeded(e, seed).(left := 0);
    ParseSerialised(c, g);
    assert Parsed(c, Serialised(c, g)) == Ok(g) && !g.CursorSafe() && TryDraw(e, g) == None;
  }

  // ----- The program's loops -----

  method ToTorchRngStateBytes<W(0,!new)>(c: WordCodec<W>, rng: BlockRng<W>) returns (bytes: seq<byte>)
    requires c.Exact() && rng.state.Length == STATE_N && Storable(rng.Value())
    ensures bytes == Serialised(c, rng.Value())
  {
    ghost var g := rng.Value();
    var values := CollectValues(c, rng);
    bytes := [];
    for k := 0 to STATE_WORDS
      invariant values[..] == StateValues(c, g)
      invariant bytes == FlatBytes(values[..k])
    {
      assert values[..k + 1][..k] == values[..k];
      bytes := bytes + U64Bytes(values[k]);
    }
    assert values[..STATE_WORDS] == values[..];
  }

  method CollectValues<W(0,!new)>(c: WordCodec<W>, rng: BlockRng<W>) returns (values: array<nat>)
    requires c.Exact() && rng.state.Length == STATE_N && Storable(rng.Value())
    ensures fresh(values) && values[..] == StateValues(c, rng.Value())
  {
    values := new nat[STATE_WORDS](_ => 0);
    values[0] := rng.seed as nat;
    values[1] := TWO_32 + rng.left;
    values[2] := rng.next;
    for index := 0 to STATE_N
      invariant values[0] == rng.seed as nat && values[1] == TWO_32 + rng.left && values[2] == rng.next
      invariant forall k :: 0 <= k < index ==> values[HEADER_WORDS + k] == c.toNumber(rng.state[k])
      invariant forall k :: HEADER_WORDS + index <= k < STATE_WORDS ==> values[k] == 0
    {
      values[HEADER_WORDS + index] := c.toNumber(rng.state[index]);
    }
    assert values[..] == StateValues(c, rng.Value());
  }

  method ReadValues(bytes: seq<byte>) returns (values: array<nat>)
    requires |bytes| == STATE_BYTES
    ensures fresh(values) && values.Length == STATE_WORDS
    ensures forall k :: 0 <= k < STATE_WORDS ==> values[k] == ValueAt(bytes, k)
  {
    values := new nat[STATE_WORDS];
    for index := 0 to STATE_WORDS
      invariant forall k :: 0 <= k < index ==> values[k] == ValueAt(bytes, k)
    {
      values[index] := ReadU64(bytes[8 * index..8 * index + 8]);
    }
  }

  /** The state words, or the first index that does not fit 32 bits. */
  method ReadStateWords<W(0,!new)>(c: WordCodec<W>, bytes: seq<byte>, values: array<nat>)
    returns (state: array<W>, wide: nat)
    requires |bytes| == STATE_BYTES && values.Length == STATE_WORDS
    requires forall k :: 0 <= k < STATE_WORDS ==> values[k] == ValueAt(bytes, k)
    ensures fresh(state) && state.Length == STATE_N && wide == FirstWideWord(bytes, 0)
    ensures wide == STATE_N ==> forall k :: 0 <= k < STATE_N ==> state[k] == c.ofNumber(StateNumber(bytes, k))
  {
    state := new W[STATE_N];
    ghost var first := FirstWideWord(bytes, 0);
    for index := 0 to STATE_N
      invariant first == FirstWideWord(bytes, index)
      invariant forall k :: 0 <= k < index ==> state[k] == c.ofNumber(StateNumber(bytes, k))
    {
      var value := values[HEADER_WORDS + index];
      if value >= TWO_32 {
        return state, index;
      }
      state[index] := c.ofNumber(value);
    }
    return state, STATE_N;
  }

  /** The first three checks of the parser, on the packed header. */
  method CheckHeader(bytes: seq<byte>, values: array<nat>) returns (error: Option<StateError>)
    requires |bytes| == STATE_BYTES && values.Length == STATE_WORDS
    requires forall k :: 0 <= k < STATE_WORDS ==> values[k] == ValueAt(bytes, k)
    ensures error.Some? ==> Rejection(bytes) == error
    ensures error.None? ==> Rejection(bytes) == BodyRejection(bytes)
  {
    if values[1] / TWO_32 != 1 {
      return Some(WrongHeader);
    }
    if values[1] % TWO_32 > STATE_N {
      return Some(LeftRange);
    }
    if values[2] > STATE_N {
      return Some(NextRange);
    }
    return None;
  }

  /** The state words after the last two checks. */
  method ReadBody<W(0,!new)>(c: WordCodec<W>, bytes: seq<byte>, values: array<nat>)
    returns (state: array<W>, error: Option<StateError>)
    requires |bytes| == STATE_BYTES && values.Length == STATE_WORDS
    requires forall k :: 0 <= k < STATE_WORDS ==> values[k] == ValueAt(bytes, k)
    ensures fresh(state) && state.Length == STATE_N && error == BodyRejection(bytes)
    ensures error.None? ==> forall k :: 0 <= k < STATE_N ==> state[k] == c.ofNumber(StateNumber(bytes, k))
  {
    var wide;
    state, wide := ReadStateWords(c, bytes, values);
    if wide < STATE_N {
      return state, Some(WordRange(wide));
    }
    if exists k :: HEADER_WORDS + STATE_N <= k < STATE_WORDS && values[k] != 0 {
      return state, Some(NonZeroTail);
    }
    return state, None;
  }

  method FromTorchRngState<W(0,!new)>(e: Engine<W>, c: WordCodec<W>, bytes: seq<byte>)
    returns (r: Result<BlockRng<W>, StateError>)
    ensures match Parsed(c, bytes)
      case Err(error) => r == Err(error)
      case Ok(g) => r.Ok? && fresh(r.value) && fresh(r.value.state) && r.value.engine == e && r.value.Value() == g
  {
    if |bytes| != STATE_BYTES {
      return Err(WrongLength);
    }
    var values := ReadValues(bytes);
    var error := CheckHeader(bytes, values);
    if error.Some? {
      return Err(error.value);
    }
    var state;
    state, error := ReadBody(c, bytes, values);
    if error.Some? {
      return Err(error.value);
    }
    var rng := Rebuild(e, c, bytes, values, state);
    return Ok(rng);
  }

  method Rebuild<W(0,!new)>(e: Engine<W>, c: WordCodec<W>, bytes: seq<byte>, values: array<nat>, state: array<W>)
    returns (rng: BlockRng<W>)
    requires |bytes| == STATE_BYTES && values.Length == STATE_WORDS && state.Length == STATE_N
    requires forall k :: 0 <= k < STATE_WORDS ==> values[k] == ValueAt(bytes, k)
    requires forall k :: 0 <= k < STATE_N ==> state[k] == c.ofNumber(StateNumber(bytes, k))
    ensures fresh(rng) && rng.state == state && rng.engine == e && rng.Value() == Decoded(c, bytes)
  {
    assert state[..] == Decoded(c, bytes).state;
    rng := new BlockRng.FromParts(e, values[0] as u64, values[1] % TWO_32, values[2], state);
  }
}
