/** The record format byte by byte: where each field of a payload stands and which payloads are accepted. */
module PayloadLayout {
  import opened Wrappers
  import opened LittleEndian
  import opened Lists
  import opened ReviewRows
  import opened Payload
  import opened PayloadBuffers

  // ----- Words at an offset -----

  /** The eight bytes from an offset on, the lowest first. */
  function U64At(bytes: seq<byte>, at: nat): nat
    requires at + 8 <= |bytes|
  {
    bytes[at] as nat + 0x100 * bytes[at + 1] as nat + 0x1_0000 * bytes[at + 2] as nat
    + 0x100_0000 * bytes[at + 3] as nat + 0x1_0000_0000 * bytes[at + 4] as nat
    + 0x100_0000_0000 * bytes[at + 5] as nat + 0x1_0000_0000_0000 * bytes[at + 6] as nat
    + 0x100_0000_0000_0000 * bytes[at + 7] as nat
  }

  function I64At(bytes: seq<byte>, at: nat): int
    requires at + 8 <= |bytes|
  {
    if bytes[at + 7] < 128 then U64At(bytes, at) else U64At(bytes, at) - 0x1_0000_0000_0000_0000
  }

  /** A float is not finite when the seven low bits of its last byte and the four high ones of the next are set. */
  predicate FiniteAt(bytes: seq<byte>, at: nat)
    requires at + 8 <= |bytes|
  {
    bytes[at + 7] % 128 != 127 || bytes[at + 6] < 240
  }

  lemma WordValue(w: seq<byte>)
    requires |w| == 8
    ensures ReadU64(w) == U64At(w, 0)
  {
    var w1, w2, w3, w4 := w[1..], w[2..], w[3..], w[4..];
    var w5, w6, w7, w8 := w[5..], w[6..], w[7..], w[8..];
    assert w1[1..] == w2 && w2[1..] == w3 && w3[1..] == w4 && w4[1..] == w5;
    assert w5[1..] == w6 && w6[1..] == w7 && w7[1..] == w8;
    assert FromLe(w7) == w[7] as nat && FromLe(w6) == w[6] as nat + 256 * FromLe(w7);
    assert FromLe(w5) == w[5] as nat + 256 * FromLe(w6) && FromLe(w4) == w[4] as nat + 256 * FromLe(w5);
    assert FromLe(w3) == w[3] as nat + 256 * FromLe(w4) && FromLe(w2) == w[2] as nat + 256 * FromLe(w3);
    assert FromLe(w1) == w[1] as nat + 256 * FromLe(w2) && FromLe(w) == w[0] as nat + 256 * FromLe(w1);
  }

  lemma SignedValue(w: seq<byte>)
    requires |w| == 8
    ensures ReadI64(w) == I64At(w, 0)
  {
    WordValue(w);
    LowBytes(w);
  }

  /** Seven bytes stay below one unit of the eighth. */
  lemma LowBytes(w: seq<byte>)
    requires |w| == 8
    ensures U64At(w, 0) - 0x100_0000_0000_0000 * w[7] as nat < 0x100_0000_0000_0000
    ensures 0 <= U64At(w, 0) - 0x1_0000_0000_0000 * (w[6] as nat + 256 * w[7] as nat) < 0x1_0000_0000_0000
  {
  }

  lemma Exponent(v: nat, low: nat, high: nat)
    requires v == low + 0x1_0000_0000_0000 * high && low < 0x1_0000_0000_0000
    ensures v / TWO_52 == high / 16
  {
    var q, r := high / 16, high % 16;
    assert v == TWO_52 * q + (0x1_0000_0000_0000 * r + low);
    assert 0x1_0000_0000_0000 * r + low < TWO_52;
  }

  lemma ExponentBits(six: nat, seven: nat)
    requires six < 256 && seven < 256
    ensures (six + 256 * seven) / 16 % 2048 == six / 16 + 16 * (seven % 128)
  {
    assert (six + 256 * seven) / 16 == six / 16 + 16 * seven;
    assert six / 16 + 16 * seven == (six / 16 + 16 * (seven % 128)) + 2048 * (seven / 128);
  }

  lemma FiniteBytes(w: seq<byte>)
    requires |w| == 8
    ensures IsFinite(ReadU64(w)) <==> FiniteAt(w, 0)
  {
    WordValue(w);
    LowBytes(w);
    var v, high := ReadU64(w), w[6] as nat + 256 * w[7] as nat;
    Exponent(v, v - 0x1_0000_0000_0000 * high, high);
    ExponentBits(w[6] as nat, w[7] as nat);
  }

  /** A word read from its slice is the word at its offset. */
  lemma ReadAt(bytes: seq<byte>, at: nat)
    requires at + 8 <= |bytes|
    ensures ReadU64(bytes[at..at + 8]) == U64At(bytes, at) && ReadI64(bytes[at..at + 8]) == I64At(bytes, at)
    ensures IsFinite(U64At(bytes, at)) <==> FiniteAt(bytes, at)
  {
    var w := bytes[at..at + 8];
    assert forall i :: 0 <= i < 8 ==> w[i] == bytes[at + i];
    WordValue(w);
    SignedValue(w);
    FiniteBytes(w);
  }

  // ----- Records -----

  predicate FlagAt(bytes: seq<byte>, at: nat)
    requires at + 8 <= |bytes|
  {
    I64At(bytes, at) == 0 || I64At(bytes, at) == 1
  }

  /** The flags of a record are 0 or 1 and its floats finite; a prediction record ends after the times. */
  predicate GoodPrefix(bytes: seq<byte>, at: nat)
    requires at + 88 <= |bytes|
  {
    && FlagAt(bytes, at + 16) && FlagAt(bytes, at + 32) && FlagAt(bytes, at + 48)
    && FiniteAt(bytes, at + 64) && FiniteAt(bytes, at + 72) && FiniteAt(bytes, at + 80)
  }

  predicate GoodRecord(bytes: seq<byte>, at: nat)
    requires at + 112 <= |bytes|
  {
    GoodPrefix(bytes, at) && FiniteAt(bytes, at + 96) && FiniteAt(bytes, at + 104)
  }

  function IdAt(bytes: seq<byte>, at: nat): MaybeId
    requires at + 16 <= |bytes|
  {
    if I64At(bytes, at) == 1 then Present(I64At(bytes, at + 8)) else Missing
  }

  predicate PrefixAt(bytes: seq<byte>, at: nat, r: Review)
    requires at + 88 <= |bytes|
  {
    && r.reviewId == I64At(bytes, at) && r.cardId == I64At(bytes, at + 8)
    && r.noteId == IdAt(bytes, at + 16) && r.deckId == IdAt(bytes, at + 32) && r.presetId == IdAt(bytes, at + 48)
    && r.dayOffset == U64At(bytes, at + 64) && r.elapsedDays == U64At(bytes, at + 72)
    && r.elapsedSeconds == U64At(bytes, at + 80)
  }

  predicate RecordStandsAt(bytes: seq<byte>, at: nat, r: Review)
    requires at + 112 <= |bytes|
  {
    && PrefixAt(bytes, at, r)
    && r.rating == Some(I64At(bytes, at + 88)) && r.duration == Some(U64At(bytes, at + 96))
    && r.state == Some(U64At(bytes, at + 104))
  }

  /** The words of a record are those at its offset. */
  ghost predicate WordsAt(bytes: seq<byte>, at: nat, words: seq<Word>) {
    && at + 8 * |words| <= |bytes|
    && forall k :: 0 <= k < |words| ==>
      && ReadU64(words[k]) == U64At(bytes, at + 8 * k) && ReadI64(words[k]) == I64At(bytes, at + 8 * k)
      && (IsFinite(ReadU64(words[k])) <==> FiniteAt(bytes, at + 8 * k))
  }

  lemma WordsStandAt(bytes: seq<byte>, at: nat, len: nat)
    requires at + len <= |bytes| && len % 8 == 0
    ensures WordsAt(bytes, at, Words(bytes[at..at + len]))
  {
    var words := Words(bytes[at..at + len]);
    forall k | 0 <= k < |words|
      ensures ReadU64(words[k]) == U64At(bytes, at + 8 * k) && ReadI64(words[k]) == I64At(bytes, at + 8 * k)
      ensures IsFinite(ReadU64(words[k])) <==> FiniteAt(bytes, at + 8 * k)
    {
      SliceOfSlice(bytes, at, len, 8 * k, 8);
      ReadAt(bytes, at + 8 * k);
    }
  }

  lemma IdMeans(bytes: seq<byte>, at: nat, words: seq<Word>, k: nat, row: nat, field: Field)
    requires WordsAt(bytes, at, words) && k + 1 < |words|
    ensures var id := ReadMaybeId(words[k], words[k + 1], row, field);
      (id.Ok? <==> FlagAt(bytes, at + 8 * k)) && (id.Ok? ==> id.value == IdAt(bytes, at + 8 * k))
  {
    assert ReadI64(words[k + 1]) == I64At(bytes, at + 8 * (k + 1));
  }

  lemma FloatMeans(bytes: seq<byte>, at: nat, words: seq<Word>, k: nat, row: nat, field: Field)
    requires WordsAt(bytes, at, words) && k < |words|
    ensures var float := ReadFinite(words[k], row, field);
      (float.Ok? <==> FiniteAt(bytes, at + 8 * k)) && (float.Ok? ==> float.value == U64At(bytes, at + 8 * k))
  {
  }

  lemma PrefixMeans(bytes: seq<byte>, at: nat, words: seq<Word>, row: nat)
    requires WordsAt(bytes, at, words) && |words| >= 11
    ensures ParsePrefix(words, row).Ok? <==> GoodPrefix(bytes, at)
    ensures ParsePrefix(words, row).Ok? ==>
      var r := ParsePrefix(words, row).value;
      PrefixAt(bytes, at, r) && r.rating.None? && r.duration.None? && r.state.None?
  {
    assert ReadI64(words[0]) == I64At(bytes, at) && ReadI64(words[1]) == I64At(bytes, at + 8);
    IdMeans(bytes, at, words, 2, row, NoteField);
    IdMeans(bytes, at, words, 4, row, DeckField);
    IdMeans(bytes, at, words, 6, row, PresetField);
    FloatMeans(bytes, at, words, 8, row, DayOffsetField);
    FloatMeans(bytes, at, words, 9, row, ElapsedDaysField);
    FloatMeans(bytes, at, words, 10, row, ElapsedSecondsField);
  }

  lemma AnswerMeans(bytes: seq<byte>, at: nat, words: seq<Word>, row: nat)
    requires WordsAt(bytes, at, words) && |words| == 14
    ensures ParseRecord(words, row).Ok? <==> GoodRecord(bytes, at)
    ensures ParseRecord(words, row).Ok? ==> RecordStandsAt(bytes, at, ParseRecord(words, row).value)
  {
    PrefixMeans(bytes, at, words, row);
    assert ReadI64(words[11]) == I64At(bytes, at + 88);
    FloatMeans(bytes, at, words, 12, row, DurationField);
    FloatMeans(bytes, at, words, 13, row, StateField);
  }

  lemma RecordMeans(bytes: seq<byte>, at: nat, row: nat)
    requires at + 112 <= |bytes|
    ensures ProcessParser()(bytes[at..at + 112], row).Ok? <==> GoodRecord(bytes, at)
    ensures ProcessParser()(bytes[at..at + 112], row).Ok? ==>
      RecordStandsAt(bytes, at, ProcessParser()(bytes[at..at + 112], row).value)
  {
    WordsStandAt(bytes, at, 112);
    AnswerMeans(bytes, at, Words(bytes[at..at + 112]), row);
  }

  lemma PredictionMeans(bytes: seq<byte>, at: nat, row: nat)
    requires at + 88 <= |bytes|
    ensures PredictionParser()(bytes[at..at + 88], row).Ok? <==> GoodPrefix(bytes, at)
    ensures PredictionParser()(bytes[at..at + 88], row).Ok? ==>
      var r := PredictionParser()(bytes[at..at + 88], row).value;
      PrefixAt(bytes, at, r) && r.rating.None? && r.duration.None? && r.state.None?
  {
    WordsStandAt(bytes, at, 88);
    PrefixMeans(bytes, at, Words(bytes[at..at + 88]), row);
  }

  // ----- Whole payloads -----

  /** "RWSRSP01" and the number of the records, which follow it back to back. */
  predicate GoodHeader(payload: seq<byte>) {
    && 16 <= |payload| < 0x1_0000_0000_0000_0000
    && payload[0] == 0x52 && payload[1] == 0x57 && payload[2] == 0x53 && payload[3] == 0x52
    && payload[4] == 0x53 && payload[5] == 0x50 && payload[6] == 0x30 && payload[7] == 0x31
    && |payload| == 16 + 112 * U64At(payload, 8)
  }

  /** Where record `i` of a buffer of records starts. */
  function Place(start: nat, i: nat): nat {
    start + 112 * i
  }

  /** The slices of a buffer, record by record. */
  ghost predicate CutFrom(payload: seq<byte>, start: nat, records: seq<seq<byte>>) {
    && |payload| == Place(start, |records|)
    && forall i :: 0 <= i < |records| ==> records[i] == payload[Place(start, i)..Place(start, i) + 112]
  }

  lemma RecordsAreCut(payload: seq<byte>, start: nat, n: nat)
    requires |payload| == Place(start, n)
    ensures |Records(payload[start..], 112)| == n && CutFrom(payload, start, Records(payload[start..], 112))
  {
    var body := payload[start..];
    var records := Records(body, 112);
    RecordsCount(body, 112, n);
    forall i | 0 <= i < n ensures records[i] == payload[Place(start, i)..Place(start, i) + 112] {
      RecordAt(body, 112, n, i);
      SliceOfRest(payload, start, i * 112, 112);
    }
  }

  ghost predicate AllGood(payload: seq<byte>, start: nat, n: nat) {
    forall i: nat :: i < n ==> Place(start, i) + 112 <= |payload| && GoodRecord(payload, Place(start, i))
  }

  ghost predicate RowsStand(payload: seq<byte>, start: nat, rows: seq<Review>) {
    forall i: nat :: i < |rows| ==>
      Place(start, i) + 112 <= |payload| && RecordStandsAt(payload, Place(start, i), rows[i])
  }

  lemma CutRecordMeans(payload: seq<byte>, start: nat, records: seq<seq<byte>>, i: nat)
    requires CutFrom(payload, start, records) && i < |records|
    ensures Place(start, i) + 112 <= |payload|
    ensures Parses(records, ProcessParser(), i) <==> GoodRecord(payload, Place(start, i))
    ensures Parses(records, ProcessParser(), i) ==>
      RecordStandsAt(payload, Place(start, i), ProcessParser()(records[i], i).value)
  {
    RecordMeans(payload, Place(start, i), i);
  }

  lemma CutRecordsAccepted(payload: seq<byte>, start: nat, records: seq<seq<byte>>, parse: Parser)
    requires CutFrom(payload, start, records) && parse == ProcessParser()
    ensures ParseAll(records, parse).Ok? <==> AllGood(payload, start, |records|)
  {
    ParseAllEach(records, parse);
    forall i: nat | i < |records|
      ensures Place(start, i) + 112 <= |payload|
          && (Parses(records, parse, i) <==> GoodRecord(payload, Place(start, i)))
    {
      CutRecordMeans(payload, start, records, i);
    }
  }

  lemma CutRecordsStand(payload: seq<byte>, start: nat, records: seq<seq<byte>>, parse: Parser, rows: seq<Review>)
    requires CutFrom(payload, start, records) && parse == ProcessParser() && ParseAll(records, parse) == Ok(rows)
    ensures |rows| == |records| && RowsStand(payload, start, rows)
  {
    ParseAllEach(records, parse);
    forall i: nat | i < |records|
      ensures Place(start, i) + 112 <= |payload| && RecordStandsAt(payload, Place(start, i), rows[i])
    {
      assert parse(records[i], i) == Ok(rows[i]);
      CutRecordMeans(payload, start, records, i);
    }
  }

  lemma CutRecordsMean(payload: seq<byte>, start: nat, records: seq<seq<byte>>)
    requires CutFrom(payload, start, records)
    ensures var parsed := ParseAll(records, ProcessParser());
      (parsed.Ok? <==> AllGood(payload, start, |records|))
      && (parsed.Ok? ==> |parsed.value| == |records| && RowsStand(payload, start, parsed.value))
  {
    CutRecordsAccepted(payload, start, records, ProcessParser());
    if ParseAll(records, ProcessParser()).Ok? {
      CutRecordsStand(payload, start, records, ProcessParser(), ParseAll(records, ProcessParser()).value);
    }
  }

  lemma HeaderMeans(payload: seq<byte>)
    requires |payload| < 0x1_0000_0000_0000_0000
    ensures GoodHeader(payload) ==> ParsePayload(payload) == ParseAll(Records(payload[16..], 112), ProcessParser())
    ensures !GoodHeader(payload) ==> ParsePayload(payload).Err?
  {
    if |payload| >= 16 {
      ReadAt(payload, 8);
      MagicMeans(payload);
    }
  }

  /** A payload is accepted exactly when its header and every record are good, and then read as it stands. */
  lemma PayloadMeans(payload: seq<byte>)
    requires |payload| < 0x1_0000_0000_0000_0000
    ensures ParsePayload(payload).Ok? <==> GoodHeader(payload) && AllGood(payload, 16, U64At(payload, 8))
    ensures ParsePayload(payload).Ok? ==>
      |ParsePayload(payload).value| == U64At(payload, 8) && RowsStand(payload, 16, ParsePayload(payload).value)
  {
    HeaderMeans(payload);
    if GoodHeader(payload) {
      RecordsAreCut(payload, 16, U64At(payload, 8));
      CutRecordsMean(payload, 16, Records(payload[16..], 112));
    }
  }

  /** A buffer of records without a header likewise. */
  lemma RecordBufferMeans(bytes: seq<byte>)
    ensures ParseRecordBuffer(bytes).Ok? <==> |bytes| % 112 == 0 && AllGood(bytes, 0, |bytes| / 112)
    ensures ParseRecordBuffer(bytes).Ok? ==>
      |ParseRecordBuffer(bytes).value| == |bytes| / 112 && RowsStand(bytes, 0, ParseRecordBuffer(bytes).value)
  {
    if |bytes| % 112 == 0 {
      assert bytes[0..] == bytes;
      RecordsAreCut(bytes, 0, |bytes| / 112);
      CutRecordsMean(bytes, 0, Records(bytes, 112));
    }
  }

  lemma MagicMeans(payload: seq<byte>)
    requires |payload| >= 16
    ensures payload[..8] == MAGIC <==>
      && payload[0] == 0x52 && payload[1] == 0x57 && payload[2] == 0x53 && payload[3] == 0x52
      && payload[4] == 0x53 && payload[5] == 0x50 && payload[6] == 0x30 && payload[7] == 0x31
  {
    var magic := payload[..8];
    assert magic == [payload[0], payload[1], payload[2], payload[3], payload[4], payload[5], payload[6], payload[7]];
  }
}
