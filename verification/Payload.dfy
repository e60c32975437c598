/** The packed payload of process reviews and the buffers of prediction records, byte for byte. */
module Payload {
  import opened Wrappers
  import opened ReviewRows
  import opened LittleEndian
  import opened Lists

  const MAGIC: seq<byte> := [82, 87, 83, 82, 83, 80, 48, 49]
  const HEADER_LEN: nat := 16
  const RECORD_LEN: nat := 112
  const PREDICTION_RECORD_LEN: nat := 88
  const TWO_52: nat := 0x10_0000_0000_0000

  /** A review whose 64-bit floats are kept as their bits. */
  type Review = ReviewInput<nat>

  datatype Field = NoteField | DeckField | PresetField | DayOffsetField | ElapsedDaysField | ElapsedSecondsField
    | DurationField | StateField

  datatype PayloadError =
    | ShortHeader | BadMagic | LengthOverflow | LengthMismatch | NotWholeRecords
    | BadFlag(row: nat, field: Field) | NotFinite(row: nat, field: Field)

  // ----- What a review may hold -----

  predicate IsI64(v: int) {
    -TWO_63 <= v < TWO_63
  }

  predicate IsWord(w: nat) {
    w < TWO_64
  }

  predicate IdFits(id: MaybeId) {
    id.Present? ==> IsI64(id.id)
  }

  /** The exponent bits of an infinity or a not-a-number are all ones. */
  predicate IsFinite(w: nat) {
    w / TWO_52 % 2048 != 2047
  }

  /** The fields have the widths of the program's types. */
  predicate Fits(r: Review) {
    && IsI64(r.reviewId) && IsI64(r.cardId) && IdFits(r.noteId) && IdFits(r.deckId) && IdFits(r.presetId)
    && IsWord(r.dayOffset) && IsWord(r.elapsedDays) && IsWord(r.elapsedSeconds)
    && (r.rating.Some? ==> IsI64(r.rating.value))
    && (r.duration.Some? ==> IsWord(r.duration.value)) && (r.state.Some? ==> IsWord(r.state.value))
  }

  predicate AllFinite(r: Review) {
    && IsFinite(r.dayOffset) && IsFinite(r.elapsedDays) && IsFinite(r.elapsedSeconds)
    && (r.duration.Some? ==> IsFinite(r.duration.value)) && (r.state.Some? ==> IsFinite(r.state.value))
  }

  predicate Packable(r: Review) {
    Fits(r) && r.Complete()
  }

  // ----- Words -----

  type Word = w: seq<byte> | |w| == 8 witness [0, 0, 0, 0, 0, 0, 0, 0]

  function Flatten(words: seq<Word>): (r: seq<byte>)
    ensures |r| == 8 * |words|
  {
    if words == [] then [] else Flatten(words[..|words| - 1]) + words[|words| - 1]
  }

  /** Word `k` of a byte string. */
  function WordAt(bytes: seq<byte>, k: nat): Word
    requires 8 * k + 8 <= |bytes|
  {
    bytes[8 * k..8 * k + 8]
  }

  function WordsOf(bytes: seq<byte>, n: nat): (r: seq<Word>)
    requires 8 * n <= |bytes|
    ensures |r| == n && forall k :: 0 <= k < n ==> r[k] == WordAt(bytes, k)
  {
    if n == 0 then [] else WordsOf(bytes, n - 1) + [WordAt(bytes, n - 1)]
  }

  function Words(bytes: seq<byte>): (r: seq<Word>)
    ensures |r| == |bytes| / 8
  {
    WordsOf(bytes, |bytes| / 8)
  }

  lemma {:induction false} FlattenAt(words: seq<Word>, k: nat)
    requires k < |words|
    ensures WordAt(Flatten(words), k) == words[k]
  {
    if k < |words| - 1 {
      FlattenAt(words[..|words| - 1], k);
      assert WordAt(Flatten(words), k) == WordAt(Flatten(words[..|words| - 1]), k);
    }
  }

  lemma FlattenSnoc(words: seq<Word>, word: Word)
    ensures Flatten(words + [word]) == Flatten(words) + word
  {
    assert (words + [word])[..|words|] == words;
  }

  // ----- Packing -----

  function FlagWord(id: MaybeId): Word {
    I64Bytes(if id.Present? then 1 else 0)
  }

  function IdWord(id: MaybeId): Word
    requires IdFits(id)
  {
    I64Bytes(if id.Present? then id.id else 0)
  }

  /** The fourteen words of a record. */
  function RecordWords(r: Review): (words: seq<Word>)
    requires Packable(r)
    ensures |words| == 14
  {
    var review: seq<Word> := [I64Bytes(r.reviewId), I64Bytes(r.cardId)];
    var note: seq<Word> := [FlagWord(r.noteId), IdWord(r.noteId)];
    var deck: seq<Word> := [FlagWord(r.deckId), IdWord(r.deckId)];
    var preset: seq<Word> := [FlagWord(r.presetId), IdWord(r.presetId)];
    var times: seq<Word> := [U64Bytes(r.dayOffset), U64Bytes(r.elapsedDays), U64Bytes(r.elapsedSeconds)];
    var answer: seq<Word> := [I64Bytes(r.rating.value), U64Bytes(r.duration.value), U64Bytes(r.state.value)];
    review + note + deck + preset + times + answer
  }

  function PackRecord(r: Review): (bytes: seq<byte>)
    requires Packable(r)
    ensures |bytes| == RECORD_LEN
  {
    Flatten(RecordWords(r))
  }

  function PackedRecords(rows: seq<Review>): (records: seq<seq<byte>>)
    requires forall i :: 0 <= i < |rows| ==> Packable(rows[i])
    ensures |records| == |rows| && forall i :: 0 <= i < |rows| ==> records[i] == PackRecord(rows[i])
  {
    seq(|rows|, i requires 0 <= i < |rows| => PackRecord(rows[i]))
  }

  function Pack(rows: seq<Review>): seq<byte>
    requires |rows| < TWO_64 && forall i :: 0 <= i < |rows| ==> Packable(rows[i])
  {
    MAGIC + U64Bytes(|rows|) + Joined(PackedRecords(rows))
  }

  // ----- Parsing -----

  function ReadMaybeId(flag: Word, id: Word, row: nat, field: Field): Result<MaybeId, PayloadError> {
    if ReadI64(flag) == 0 then Ok(Missing)
    else if ReadI64(flag) == 1 then Ok(Present(ReadI64(id)))
    else Err(BadFlag(row, field))
  }

  function ReadFinite(word: Word, row: nat, field: Field): Result<nat, PayloadError> {
    if IsFinite(ReadU64(word)) then Ok(ReadU64(word)) else Err(NotFinite(row, field))
  }

  /** The eight fields that both record formats begin with, or the first bad one. */
  function ParsePrefix(words: seq<Word>, row: nat): Result<Review, PayloadError>
    requires |words| >= 11
  {
    var note := ReadMaybeId(words[2], words[3], row, NoteField);
    var deck := ReadMaybeId(words[4], words[5], row, DeckField);
    var preset := ReadMaybeId(words[6], words[7], row, PresetField);
    var day := ReadFinite(words[8], row, DayOffsetField);
    var days := ReadFinite(words[9], row, ElapsedDaysField);
    var seconds := ReadFinite(words[10], row, ElapsedSecondsField);
    if note.Err? then Err(note.error)
    else if deck.Err? then Err(deck.error)
    else if preset.Err? then Err(preset.error)
    else if day.Err? then Err(day.error)
    else if days.Err? then Err(days.error)
    else if seconds.Err? then Err(seconds.error)
    else
      Ok(ReviewInput(ReadI64(words[0]), ReadI64(words[1]), note.value, deck.value, preset.value,
                     day.value, days.value, seconds.value, None, None, None))
  }

  function ParseRecord(words: seq<Word>, row: nat): Result<Review, PayloadError>
    requires |words| == 14
  {
    var prefix := ParsePrefix(words, row);
    var duration := ReadFinite(words[12], row, DurationField);
    var state := ReadFinite(words[13], row, StateField);
    if prefix.Err? then prefix
    else if duration.Err? then Err(duration.error)
    else if state.Err? then Err(state.error)
    else Ok(prefix.value.(rating := Some(ReadI64(words[11])), duration := Some(duration.value),
                          state := Some(state.value)))
  }

  /** A parser of one record of a format, told the row it is at. */
  type Parser = (seq<byte>, nat) -> Result<Review, PayloadError>

  function ProcessParser(): Parser {
    (bytes: seq<byte>, row: nat) => if |bytes| == RECORD_LEN then ParseRecord(Words(bytes), row)
        else Err(NotWholeRecords)
  }

  function PredictionParser(): Parser {
    (bytes: seq<byte>, row: nat) => if |bytes| == PREDICTION_RECORD_LEN then ParsePrefix(Words(bytes), row)
        else Err(NotWholeRecords)
  }

  /** A byte string cut into records of one length. */
  function Records(bytes: seq<byte>, len: nat): (r: seq<seq<byte>>)
    requires len > 0
    ensures forall k :: 0 <= k < |r| ==> |r[k]| == len
  {
    if |bytes| < len then [] else [bytes[..len]] + Records(bytes[len..], len)
  }

  /** The rows of a list of records, or the error of the first bad one. */
  function ParseAll(records: seq<seq<byte>>, parse: Parser): (r: Result<seq<Review>, PayloadError>)
    ensures r.Ok? ==> |r.value| == |records|
  {
    if records == [] then Ok([])
    else
      var front := ParseAll(records[..|records| - 1], parse);
      if front.Err? then front
      else
        var last := parse(records[|records| - 1], |records| - 1);
        if last.Err? then Err(last.error) else Ok(front.value + [last.value])
  }

  function ParseBuffer(bytes: seq<byte>, len: nat, parse: Parser): Result<seq<Review>, PayloadError>
    requires len > 0
  {
    if |bytes| % len != 0 then Err(NotWholeRecords) else ParseAll(Records(bytes, len), parse)
  }

  function ParseRecordBuffer(bytes: seq<byte>): Result<seq<Review>, PayloadError> {
    ParseBuffer(bytes, RECORD_LEN, ProcessParser())
  }

  function ParsePredictionBuffer(bytes: seq<byte>): Result<seq<Review>, PayloadError> {
    ParseBuffer(bytes, PREDICTION_RECORD_LEN, PredictionParser())
  }

  function ParsePayload(payload: seq<byte>): Result<seq<Review>, PayloadError> {
    if |payload| < HEADER_LEN then Err(ShortHeader)
    else if payload[..8] != MAGIC then Err(BadMagic)
    else
      var rows := ReadU64(payload[8..16]);
      if HEADER_LEN + RECORD_LEN * rows >= TWO_64 then Err(LengthOverflow)
      else if |payload| != HEADER_LEN + RECORD_LEN * rows then Err(LengthMismatch)
      else ParseAll(Records(payload[HEADER_LEN..], RECORD_LEN), ProcessParser())
  }

  predicate Parses(records: seq<seq<byte>>, parse: Parser, i: nat)
    requires i < |records|
  {
    parse(records[i], i).Ok?
  }

  /** A list of records parses exactly when each one does, and then each to its own row. */
  lemma {:induction false} ParseAllEach(records: seq<seq<byte>>, parse: Parser)
    ensures ParseAll(records, parse).Ok? <==> forall i :: 0 <= i < |records| ==> Parses(records, parse, i)
    ensures ParseAll(records, parse).Ok? ==>
      forall i :: 0 <= i < |records| ==> parse(records[i], i) == Ok(ParseAll(records, parse).value[i])
  {
    if records != [] {
      var front := records[..|records| - 1];
      ParseAllEach(front, parse);
      assert forall i :: 0 <= i < |front| ==> (Parses(records, parse, i) <==> Parses(front, parse, i));
      assert Parses(records, parse, |front|) <==> parse(records[|front|], |front|).Ok?;
    }
  }

  // ----- Records of a concatenation -----

  lemma {:induction false} RecordsCount(bytes: seq<byte>, len: nat, n: nat)
    requires len > 0 && |bytes| == n * len
    ensures |Records(bytes, len)| == n
  {
    if n > 0 {
      assert n * len == (n - 1) * len + len;
      RecordsCount(bytes[len..], len, n - 1);
    }
  }

  lemma {:induction false} RecordsConcat(a: seq<byte>, b: seq<byte>, len: nat, n: nat)
    requires len > 0 && |a| == n * len
    ensures Records(a + b, len) == Records(a, len) + Records(b, len)
  {
    if n == 0 {
      assert a + b == b;
    } else {
      assert n * len == (n - 1) * len + len;
      assert (a + b)[..len] == a[..len] && (a + b)[len..] == a[len..] + b;
      RecordsConcat(a[len..], b, len, n - 1);
    }
  }

  /** Success and rows do not depend on the row number; only errors mention it. */
  ghost predicate RowBlind(parse: Parser) {
    forall bytes, i, j :: parse(bytes, i).Ok? ==> parse(bytes, j) == parse(bytes, i)
  }

  lemma PrefixIsRowBlind(words: seq<Word>, i: nat, j: nat)
    requires |words| >= 11 && ParsePrefix(words, i).Ok?
    ensures ParsePrefix(words, j) == ParsePrefix(words, i)
  {
  }

  lemma ParsersAreRowBlind()
    ensures RowBlind(ProcessParser()) && RowBlind(PredictionParser())
  {
    forall bytes, i, j | ProcessParser()(bytes, i).Ok? ensures ProcessParser()(bytes, j) == ProcessParser()(bytes, i) {
      PrefixIsRowBlind(Words(bytes), i, j);
    }
    forall bytes, i, j | PredictionParser()(bytes, i).Ok?
        ensures PredictionParser()(bytes, j) == PredictionParser()(bytes, i) {
      PrefixIsRowBlind(Words(bytes), i, j);
    }
  }

  lemma {:induction false} ParseAllConcat(a: seq<seq<byte>>, b: seq<seq<byte>>, parse: Parser)
    requires RowBlind(parse)
    ensures ParseAll(a + b, parse).Ok? <==> ParseAll(a, parse).Ok? && ParseAll(b, parse).Ok?
    ensures ParseAll(a + b, parse).Ok? ==>
        ParseAll(a + b, parse).value == ParseAll(a, parse).value + ParseAll(b, parse).value
  {
    if b == [] {
      assert a + b == a;
    } else {
      var front, last := b[..|b| - 1], b[|b| - 1];
      assert (a + b)[..|a + b| - 1] == a + front;
      ParseAllConcat(a, front, parse);
      assert parse(last, |a + front|).Ok? <==> parse(last, |front|).Ok?;
    }
  }

  /** Parsing a buffer distributes over concatenation of whole records, success and rows alike. */
  lemma BuffersConcat(a: seq<byte>, b: seq<byte>, len: nat, parse: Parser)
    requires len > 0 && RowBlind(parse) && |a| % len == 0
    ensures ParseBuffer(a + b, len, parse).Ok? <==> ParseBuffer(a, len, parse).Ok? && ParseBuffer(b, len, parse).Ok?
    ensures ParseBuffer(a + b, len, parse).Ok? ==>
      ParseBuffer(a + b, len, parse).value == ParseBuffer(a, len, parse).value + ParseBuffer(b, len, parse).value
  {
    var n := |a| / len;
    assert |a| == n * len;
    RemainderAdds(n, |b|, len);
    RecordsConcat(a, b, len, n);
    ParseAllConcat(Records(a, len), Records(b, len), parse);
  }

  lemma RecordBuffersConcat(a: seq<byte>, b: seq<byte>)
    requires |a| % RECORD_LEN == 0
    ensures ParseRecordBuffer(a + b).Ok? <==> ParseRecordBuffer(a).Ok? && ParseRecordBuffer(b).Ok?
    ensures ParseRecordBuffer(a + b).Ok? ==>
        ParseRecordBuffer(a + b).value == ParseRecordBuffer(a).value + ParseRecordBuffer(b).value
  {
    ParsersAreRowBlind();
    BuffersConcat(a, b, RECORD_LEN, ProcessParser());
  }

  lemma PredictionBuffersConcat(a: seq<byte>, b: seq<byte>)
    requires |a| % PREDICTION_RECORD_LEN == 0
    ensures ParsePredictionBuffer(a + b).Ok? <==> ParsePredictionBuffer(a).Ok? && ParsePredictionBuffer(b).Ok?
    ensures ParsePredictionBuffer(a + b).Ok? ==>
      ParsePredictionBuffer(a + b).value == ParsePredictionBuffer(a).value + ParsePredictionBuffer(b).value
  {
    ParsersAreRowBlind();
    BuffersConcat(a, b, PREDICTION_RECORD_LEN, PredictionParser());
  }

  lemma RemainderAdds(n: nat, b: nat, len: nat)
    requires len > 0
    ensures (n * len + b) % len == b % len
  {
    var x := n * len + b;
    assert x == (n + b / len) * len + b % len;
    DivisionIsUnique(n + b / len, b % len, x / len, x % len, len);
  }

  lemma DivisionIsUnique(p: nat, r: nat, q: nat, s: nat, len: nat)
    requires p * len + r == q * len + s && r < len && s < len
    ensures r == s
  {
    if p < q {
      MultipleGap(p, q, len);
    } else if q < p {
      MultipleGap(q, p, len);
    }
  }

  lemma MultipleGap(p: nat, q: nat, len: nat)
    requires p < q
    ensures p * len + len <= q * len
  {
    var gap := q - p - 1;
    assert q * len == (gap + p + 1) * len == gap * len + p * len + len;
    assert gap * len >= 0;
  }

  // ----- Parsing what was packed -----

  lemma IdRoundTrip(id: MaybeId, row: nat, field: Field)
    requires IdFits(id)
    ensures ReadMaybeId(FlagWord(id), IdWord(id), row, field) == Ok(id)
  {
  }

  /** A packed record parses back exactly when its floats are finite. */
  lemma RecordRoundTrip(r: Review, row: nat)
    requires Packable(r)
    ensures if AllFinite(r) then ParseRecord(RecordWords(r), row) == Ok(r) else ParseRecord(RecordWords(r), row).Err?
  {
    IdRoundTrip(r.noteId, row, NoteField);
    IdRoundTrip(r.deckId, row, DeckField);
    IdRoundTrip(r.presetId, row, PresetField);
  }

  lemma WordsOfFlatten(words: seq<Word>)
    ensures Words(Flatten(words)) == words
  {
    forall k | 0 <= k < |words| ensures Words(Flatten(words))[k] == words[k] {
      FlattenAt(words, k);
    }
  }

  lemma PackedRecordParses(r: Review, row: nat)
    requires Packable(r)
    ensures ProcessParser()(PackRecord(r), row) == if AllFinite(r) then Ok(r) else ParseRecord(RecordWords(r), row)
    ensures ProcessParser()(PackRecord(r), row).Ok? <==> AllFinite(r)
  {
    WordsOfFlatten(RecordWords(r));
    RecordRoundTrip(r, row);
  }

  predicate EveryFinite(rows: seq<Review>) {
    forall i :: 0 <= i < |rows| ==> AllFinite(rows[i])
  }

  lemma {:induction false} JoinedRecords(records: seq<seq<byte>>, len: nat)
    requires len > 0 && forall k :: 0 <= k < |records| ==> |records[k]| == len
    ensures |Joined(records)| == |records| * len && Records(Joined(records), len) == records
  {
    if records != [] {
      var front, last := records[..|records| - 1], records[|records| - 1];
      JoinedRecords(front, len);
      assert |records| * len == |front| * len + len;
      RecordsConcat(Joined(front), last, len, |front|);
      assert last[..len] == last && last[len..] == [];
      assert records == front + [last];
    }
  }

  lemma PackedRowParses(rows: seq<Review>, i: nat)
    requires i < |rows| && forall k :: 0 <= k < |rows| ==> Packable(rows[k])
    ensures Parses(PackedRecords(rows), ProcessParser(), i) <==> AllFinite(rows[i])
    ensures AllFinite(rows[i]) ==> ProcessParser()(PackedRecords(rows)[i], i) == Ok(rows[i])
  {
    PackedRecordParses(rows[i], i);
  }

  /** When every record parses to its row, the list parses to the rows. */
  lemma ParseAllRows(records: seq<seq<byte>>, parse: Parser, rows: seq<Review>)
    requires |rows| == |records| && forall i :: 0 <= i < |records| ==> parse(records[i], i) == Ok(rows[i])
    ensures ParseAll(records, parse) == Ok(rows)
  {
    forall i | 0 <= i < |records| ensures Parses(records, parse, i) {
      assert parse(records[i], i) == Ok(rows[i]);
    }
    ParseAllEach(records, parse);
    var parsed := ParseAll(records, parse).value;
    forall i | 0 <= i < |rows| ensures parsed[i] == rows[i] {
      assert parse(records[i], i) == Ok(parsed[i]);
    }
    assert parsed == rows;
  }

  lemma PackedRowsParse(rows: seq<Review>)
    requires forall i :: 0 <= i < |rows| ==> Packable(rows[i])
    ensures ParseAll(PackedRecords(rows), ProcessParser()).Ok? <==> EveryFinite(rows)
    ensures EveryFinite(rows) ==> ParseAll(PackedRecords(rows), ProcessParser()) == Ok(rows)
  {
    var records, parse := PackedRecords(rows), ProcessParser();
    ParseAllEach(records, parse);
    if EveryFinite(rows) {
      forall i | 0 <= i < |records| ensures parse(records[i], i) == Ok(rows[i]) {
        PackedRowParses(rows, i);
      }
      ParseAllRows(records, parse, rows);
    } else {
      var i :| 0 <= i < |rows| && !AllFinite(rows[i]);
      PackedRowParses(rows, i);
      assert !Parses(records, parse, i);
    }
  }

  /** A packed list parses, and then to itself, exactly when every float in it is finite, for every length that fits. */
  lemma PackedPayloadParses(rows: seq<Review>)
    requires HEADER_LEN + RECORD_LEN * |rows| < TWO_64 && forall i :: 0 <= i < |rows| ==> Packable(rows[i])
    ensures ParsePayload(Pack(rows)).Ok? <==> EveryFinite(rows)
    ensures EveryFinite(rows) ==> ParsePayload(Pack(rows)) == Ok(rows)
  {
    var payload, body := Pack(rows), Joined(PackedRecords(rows));
    assert payload[..8] == MAGIC && payload[8..16] == U64Bytes(|rows|) && payload[16..] == body;
    JoinedRecords(PackedRecords(rows), RECORD_LEN);
    PackedRowsParse(rows);
  }

  // ----- Packing what was parsed -----

  const ZERO_WORD: Word := [0, 0, 0, 0, 0, 0, 0, 0]

  /** The value word of an absent id is zero. */
  function CanonicalId(flag: Word, id: Word): Word {
    if flag == ZERO_WORD then ZERO_WORD else id
  }

  function CanonicalWords(words: seq<Word>): (r: seq<Word>)
    requires |words| == 14
    ensures |r| == 14
  {
    words[3 := CanonicalId(words[2], words[3])]
         [5 := CanonicalId(words[4], words[5])]
         [7 := CanonicalId(words[6], words[7])]
  }

  function CanonicalRecord(record: seq<byte>): (r: seq<byte>)
    requires |record| == RECORD_LEN
    ensures |r| == RECORD_LEN
  {
    Flatten(CanonicalWords(Words(record)))
  }

  function CanonicalRecords(records: seq<seq<byte>>): (r: seq<seq<byte>>)
    requires forall i :: 0 <= i < |records| ==> |records[i]| == RECORD_LEN
    ensures |r| == |records| && forall i :: 0 <= i < |records| ==> r[i] == CanonicalRecord(records[i])
  {
    seq(|records|, i requires 0 <= i < |records| => CanonicalRecord(records[i]))
  }

  /** The payload with the value word of each absent id set to zero, and nothing else changed. */
  function Canonical(payload: seq<byte>): seq<byte>
    requires |payload| >= HEADER_LEN
  {
    payload[..HEADER_LEN] + Joined(CanonicalRecords(Records(payload[HEADER_LEN..], RECORD_LEN)))
  }

  lemma ZeroIsZero(word: Word)
    ensures ReadI64(word) == 0 <==> word == ZERO_WORD
    ensures I64Bytes(0) == ZERO_WORD
  {
    assert LeBytes(0, 4) == [0, 0, 0, 0];
    assert I64Bytes(0) == ZERO_WORD;
    I64BytesRead(word);
    I64BytesRead(ZERO_WORD);
  }

  lemma IdPacksCanonically(flag: Word, id: Word, row: nat, field: Field)
    requires ReadMaybeId(flag, id, row, field).Ok?
    ensures var m := ReadMaybeId(flag, id, row, field).value;
      IdFits(m) && FlagWord(m) == flag && IdWord(m) == CanonicalId(flag, id)
  {
    ZeroIsZero(flag);
    I64BytesRead(flag);
    I64BytesRead(id);
  }

  lemma PrefixPacks(words: seq<Word>, row: nat)
    requires |words| == 14 && ParsePrefix(words, row).Ok?
    ensures var r := ParsePrefix(words, row).value;
      && Fits(r) && AllFinite(r)
      && I64Bytes(r.reviewId) == words[0] && I64Bytes(r.cardId) == words[1]
      && FlagWord(r.noteId) == words[2] && IdWord(r.noteId) == CanonicalId(words[2], words[3])
      && FlagWord(r.deckId) == words[4] && IdWord(r.deckId) == CanonicalId(words[4], words[5])
      && FlagWord(r.presetId) == words[6] && IdWord(r.presetId) == CanonicalId(words[6], words[7])
      && U64Bytes(r.dayOffset) == words[8] && U64Bytes(r.elapsedDays) == words[9]
      && U64Bytes(r.elapsedSeconds) == words[10]
  {
    IdPacksCanonically(words[2], words[3], row, NoteField);
    IdPacksCanonically(words[4], words[5], row, DeckField);
    IdPacksCanonically(words[6], words[7], row, PresetField);
    I64BytesRead(words[0]);
    I64BytesRead(words[1]);
    U64BytesRead(words[8]);
    U64BytesRead(words[9]);
    U64BytesRead(words[10]);
  }

  lemma RecordWordsAre(r: Review)
    requires Packable(r)
    ensures RecordWords(r) ==
      [I64Bytes(r.reviewId), I64Bytes(r.cardId),
       FlagWord(r.noteId), IdWord(r.noteId), FlagWord(r.deckId), IdWord(r.deckId), FlagWord(r.presetId),
       IdWord(r.presetId), U64Bytes(r.dayOffset), U64Bytes(r.elapsedDays), U64Bytes(r.elapsedSeconds),
       I64Bytes(r.rating.value), U64Bytes(r.duration.value), U64Bytes(r.state.value)]
  {
  }

  lemma CanonicalWordsAre(words: seq<Word>)
    requires |words| == 14
    ensures CanonicalWords(words) ==
      [words[0], words[1], words[2], CanonicalId(words[2], words[3]), words[4], CanonicalId(words[4], words[5]),
       words[6], CanonicalId(words[6], words[7]), words[8], words[9], words[10], words[11], words[12], words[13]]
  {
  }

  lemma ParsedRecordPacks(words: seq<Word>, row: nat)
    requires |words| == 14 && ParseRecord(words, row).Ok?
    ensures Packable(ParseRecord(words, row).value) && AllFinite(ParseRecord(words, row).value)
    ensures RecordWords(ParseRecord(words, row).value) == CanonicalWords(words)
  {
    PrefixPacks(words, row);
    CanonicalWordsAre(words);
    RecordWordsAre(ParseRecord(words, row).value);
    I64BytesRead(words[11]);
    U64BytesRead(words[12]);
    U64BytesRead(words[13]);
  }

  lemma ParsedBytesPack(record: seq<byte>, row: nat)
    requires |record| == RECORD_LEN && ProcessParser()(record, row).Ok?
    ensures var r := ProcessParser()(record, row).value;
      Packable(r) && AllFinite(r) && PackRecord(r) == CanonicalRecord(record)
  {
    ParsedRecordPacks(Words(record), row);
  }

  lemma ParsedRowsPack(records: seq<seq<byte>>)
    requires (forall i :: 0 <= i < |records| ==> |records[i]| == RECORD_LEN) && ParseAll(records, ProcessParser()).Ok?
    ensures var rows := ParseAll(records, ProcessParser()).value;
      && (forall i :: 0 <= i < |rows| ==> Packable(rows[i])) && EveryFinite(rows)
      && PackedRecords(rows) == CanonicalRecords(records)
  {
    var parse := ProcessParser();
    var rows := ParseAll(records, parse).value;
    ParseAllEach(records, parse);
    forall i | 0 <= i < |rows|
        ensures Packable(rows[i]) && AllFinite(rows[i]) && PackRecord(rows[i]) == CanonicalRecord(records[i]) {
      assert parse(records[i], i) == Ok(rows[i]);
      ParsedBytesPack(records[i], i);
    }
  }

  /** Packing a parsed payload gives it back with the value word of each absent id zeroed. */
  lemma ParsedPayloadPacks(payload: seq<byte>)
    requires ParsePayload(payload).Ok?
    ensures var rows := ParsePayload(payload).value;
      && |rows| < TWO_64 && (forall i :: 0 <= i < |rows| ==> Packable(rows[i])) && EveryFinite(rows)
      && Pack(rows) == Canonical(payload)
  {
    var body, count := payload[HEADER_LEN..], ReadU64(payload[8..16]);
    RecordsCount(body, RECORD_LEN, count);
    ParsedRowsPack(Records(body, RECORD_LEN));
    U64BytesRead(payload[8..16]);
    assert payload[..HEADER_LEN] == payload[..8] + payload[8..16];
  }

  /** The canonical payload parses to the same rows, and is its own canonical form. */
  lemma CanonicalIsStable(payload: seq<byte>)
    requires ParsePayload(payload).Ok?
    ensures ParsePayload(Canonical(payload)) == ParsePayload(payload)
    ensures |Canonical(payload)| >= HEADER_LEN && Canonical(Canonical(payload)) == Canonical(payload)
  {
    var rows := ParsePayload(payload).value;
    ParsedPayloadPacks(payload);
    var body, count := payload[HEADER_LEN..], ReadU64(payload[8..16]);
    RecordsCount(body, RECORD_LEN, count);
    PackedPayloadParses(rows);
    ParsedPayloadPacks(Canonical(payload));
  }

  // ----- Prediction records -----

  function Prefixes(records: seq<seq<byte>>): (r: seq<seq<byte>>)
    requires forall i :: 0 <= i < |records| ==> |records[i]| == RECORD_LEN
    ensures |r| == |records| && forall i :: 0 <= i < |r| ==> r[i] == records[i][..PREDICTION_RECORD_LEN]
  {
    seq(|records|, i requires 0 <= i < |records| => records[i][..PREDICTION_RECORD_LEN])
  }

  /** The fields a prediction record carries. */
  function Unanswered(r: Review): Review {
    r.(rating := None, duration := None, state := None)
  }

  lemma PrefixParses(record: seq<byte>, row: nat)
    requires |record| == RECORD_LEN && ProcessParser()(record, row).Ok?
    ensures PredictionParser()(record[..PREDICTION_RECORD_LEN], row)
        == Ok(Unanswered(ProcessParser()(record, row).value))
  {
    var prefix := record[..PREDICTION_RECORD_LEN];
    forall k | 0 <= k < 11 ensures Words(prefix)[k] == Words(record)[k] {
      assert WordAt(prefix, k) == WordAt(record, k);
    }
    SamePrefix(Words(prefix), Words(record), row);
  }

  lemma SamePrefix(a: seq<Word>, b: seq<Word>, row: nat)
    requires |a| >= 11 && |b| >= 11 && forall k :: 0 <= k < 11 ==> a[k] == b[k]
    ensures ParsePrefix(a, row) == ParsePrefix(b, row)
  {
  }

  function AllUnanswered(rows: seq<Review>): (r: seq<Review>)
    ensures |r| == |rows| && forall i :: 0 <= i < |r| ==> r[i] == Unanswered(rows[i])
  {
    seq(|rows|, i requires 0 <= i < |rows| => Unanswered(rows[i]))
  }

  lemma PrefixRowsParse(records: seq<seq<byte>>)
    requires (forall i :: 0 <= i < |records| ==> |records[i]| == RECORD_LEN) && ParseAll(records, ProcessParser()).Ok?
    ensures ParseAll(Prefixes(records), PredictionParser())
        == Ok(AllUnanswered(ParseAll(records, ProcessParser()).value))
  {
    var parse, predict := ProcessParser(), PredictionParser();
    var rows := ParseAll(records, parse).value;
    ParseAllEach(records, parse);
    forall i | 0 <= i < |records| ensures predict(Prefixes(records)[i], i) == Ok(AllUnanswered(rows)[i]) {
      assert parse(records[i], i) == Ok(rows[i]);
      PrefixParses(records[i], i);
    }
    ParseAllRows(Prefixes(records), predict, AllUnanswered(rows));
  }

  /** The 88-byte prefixes of process records parse as prediction records to the same first eight fields. */
  lemma PredictionPrefixes(records: seq<seq<byte>>)
    requires (forall i :: 0 <= i < |records| ==> |records[i]| == RECORD_LEN) && ParseRecordBuffer(Joined(records)).Ok?
    ensures ParsePredictionBuffer(Joined(Prefixes(records)))
        == Ok(AllUnanswered(ParseRecordBuffer(Joined(records)).value))
  {
    JoinedParses(records, RECORD_LEN, ProcessParser());
    PrefixRowsParse(records);
    JoinedParses(Prefixes(records), PREDICTION_RECORD_LEN, PredictionParser());
  }

  lemma JoinedParses(records: seq<seq<byte>>, len: nat, parse: Parser)
    requires len > 0 && forall i :: 0 <= i < |records| ==> |records[i]| == len
    ensures ParseBuffer(Joined(records), len, parse) == ParseAll(records, parse)
  {
    JoinedRecords(records, len);
    RemainderAdds(|records|, 0, len);
  }
}
