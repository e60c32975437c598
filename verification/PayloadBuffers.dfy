/** The loops that pack and parse: bytes appended word by word, and a cursor moved over the records. */
module PayloadBuffers {
  import opened Wrappers
  import opened Lists
  import opened ReviewRows
  import opened LittleEndian
  import opened Payload

  // ----- Packing -----

  method AppendWord(payload: seq<byte>, word: Word, ghost start: seq<byte>, ghost words: seq<Word>)
    returns (r: seq<byte>, ghost appended: seq<Word>)
    requires payload == start + Flatten(words)
    ensures appended == words + [word] && r == start + Flatten(appended)
  {
    FlattenSnoc(words, word);
    return payload + word, words + [word];
  }

  method AppendMaybeId(payload: seq<byte>, id: MaybeId, ghost start: seq<byte>, ghost words: seq<Word>)
    returns (r: seq<byte>, ghost appended: seq<Word>)
    requires IdFits(id) && payload == start + Flatten(words)
    ensures appended == words + [FlagWord(id), IdWord(id)] && r == start + Flatten(appended)
  {
    var flag, value := if id.Present? then 1 else 0, if id.Present? then id.id else 0;
    r, appended := AppendWord(payload, I64Bytes(flag), start, words);
    r, appended := AppendWord(r, I64Bytes(value), start, appended);
  }

  method AppendIds(payload: seq<byte>, input: Review) returns (r: seq<byte>, ghost words: seq<Word>)
    requires Packable(input)
    ensures words == RecordWords(input)[..8] && r == payload + Flatten(words)
  {
    r, words := AppendFirstIds(payload, input);
    r, words := AppendMaybeId(r, input.noteId, payload, words);
    r, words := AppendMaybeId(r, input.deckId, payload, words);
    r, words := AppendMaybeId(r, input.presetId, payload, words);
    EightWords(input);
  }

  method AppendFirstIds(payload: seq<byte>, input: Review) returns (r: seq<byte>, ghost words: seq<Word>)
    requires Packable(input)
    ensures words == [I64Bytes(input.reviewId), I64Bytes(input.cardId)] && r == payload + Flatten(words)
  {
    words := [];
    r := payload;
    assert payload + Flatten(words) == payload;
    r, words := AppendWord(r, I64Bytes(input.reviewId), payload, words);
    r, words := AppendWord(r, I64Bytes(input.cardId), payload, words);
  }

  lemma EightWords(input: Review)
    requires Packable(input)
    ensures RecordWords(input)[..8]
         == [I64Bytes(input.reviewId), I64Bytes(input.cardId)] + [FlagWord(input.noteId), IdWord(input.noteId)]
          + [FlagWord(input.deckId), IdWord(input.deckId)] + [FlagWord(input.presetId), IdWord(input.presetId)]
  {
  }

  method AppendTimes(payload: seq<byte>, input: Review, ghost start: seq<byte>, ghost words: seq<Word>)
    returns (r: seq<byte>, ghost appended: seq<Word>)
    requires Packable(input) && payload == start + Flatten(words)
    ensures appended == words + [U64Bytes(input.dayOffset), U64Bytes(input.elapsedDays), U64Bytes(input.elapsedSeconds)]
    ensures r == start + Flatten(appended)
  {
    r, appended := AppendWord(payload, U64Bytes(input.dayOffset), start, words);
    r, appended := AppendWord(r, U64Bytes(input.elapsedDays), start, appended);
    r, appended := AppendWord(r, U64Bytes(input.elapsedSeconds), start, appended);
  }

  method AppendAnswer(payload: seq<byte>, input: Review, ghost start: seq<byte>, ghost words: seq<Word>)
    returns (r: seq<byte>, ghost appended: seq<Word>)
    requires Packable(input) && payload == start + Flatten(words)
    ensures appended
        == words + [I64Bytes(input.rating.value), U64Bytes(input.duration.value), U64Bytes(input.state.value)]
    ensures r == start + Flatten(appended)
  {
    r, appended := AppendWord(payload, I64Bytes(input.rating.value), start, words);
    r, appended := AppendWord(r, U64Bytes(input.duration.value), start, appended);
    r, appended := AppendWord(r, U64Bytes(input.state.value), start, appended);
  }

  method AppendReview(payload: seq<byte>, input: Review) returns (r: seq<byte>)
    requires Packable(input)
    ensures r == payload + PackRecord(input)
  {
    ghost var words: seq<Word>;
    r, words := AppendIds(payload, input);
    r, words := AppendTimes(r, input, payload, words);
    r, words := AppendAnswer(r, input, payload, words);
    assert words == RecordWords(input);
  }

  lemma JoinStep(header: seq<byte>, records: seq<seq<byte>>, k: nat)
    requires k < |records|
    ensures header + Joined(records[..k + 1]) == header + Joined(records[..k]) + records[k]
  {
    assert records[..k + 1][..k] == records[..k];
  }

  method PackProcessReviewPayload(inputs: seq<Review>) returns (payload: seq<byte>)
    requires |inputs| < TWO_64 && forall i :: 0 <= i < |inputs| ==> Packable(inputs[i])
    ensures payload == Pack(inputs)
  {
    ghost var header, records := MAGIC + U64Bytes(|inputs|), PackedRecords(inputs);
    payload := MAGIC + U64Bytes(|inputs|);
    assert header + Joined(records[..0]) == header;
    for k := 0 to |inputs|
      invariant payload == header + Joined(records[..k])
    {
      JoinStep(header, records, k);
      payload := AppendReview(payload, inputs[k]);
    }
    assert records[..|inputs|] == records;
  }

  // ----- Parsing -----

  /** The word at a cursor inside the record that starts there. */
  method ReadWord(bytes: seq<byte>, offset: nat, ghost record: seq<byte>, ghost start: nat, ghost k: nat)
    returns (word: Word)
    requires start + |record| <= |bytes| && record == bytes[start..start + |record|]
    requires 8 * k + 8 <= |record| && offset == start + 8 * k
    ensures word == Words(record)[k]
  {
    word := bytes[offset..offset + 8];
    SliceOfSlice(bytes, start, |record|, 8 * k, 8);
    assert word == WordAt(record, k);
  }

  method ReadMaybeIdAt(bytes: seq<byte>, offset: nat, row: nat, field: Field, ghost record: seq<byte>,
                       ghost start: nat, ghost k: nat)
    returns (r: Result<MaybeId, PayloadError>, next: nat)
    requires start + |record| <= |bytes| && record == bytes[start..start + |record|]
    requires 8 * k + 16 <= |record| && offset == start + 8 * k
    ensures r == ReadMaybeId(Words(record)[k], Words(record)[k + 1], row, field) && next == offset + 16
  {
    var flag := ReadWord(bytes, offset, record, start, k);
    var id := ReadWord(bytes, offset + 8, record, start, k + 1);
    next := offset + 16;
    if ReadI64(flag) == 0 {
      r := Ok(Missing);
    } else if ReadI64(flag) == 1 {
      r := Ok(Present(ReadI64(id)));
    } else {
      r := Err(BadFlag(row, field));
    }
  }

  method ReadFiniteAt(bytes: seq<byte>, offset: nat, row: nat, field: Field, ghost record: seq<byte>,
                      ghost start: nat, ghost k: nat)
    returns (r: Result<nat, PayloadError>)
    requires start + |record| <= |bytes| && record == bytes[start..start + |record|]
    requires 8 * k + 8 <= |record| && offset == start + 8 * k
    ensures r == ReadFinite(Words(record)[k], row, field)
  {
    var word := ReadWord(bytes, offset, record, start, k);
    r := if IsFinite(ReadU64(word)) then Ok(ReadU64(word)) else Err(NotFinite(row, field));
  }

  /** The eight fields both formats begin with; each is read before the next, and the first bad one ends the parse. */
  method ReadPrefix(bytes: seq<byte>, start: nat, row: nat, ghost record: seq<byte>)
    returns (r: Result<Review, PayloadError>)
    requires start + |record| <= |bytes| && record == bytes[start..start + |record|]
        && |record| >= PREDICTION_RECORD_LEN
    ensures r == ParsePrefix(Words(record), row)
  {
    var reviewId := ReadWord(bytes, start, record, start, 0);
    var cardId := ReadWord(bytes, start + 8, record, start, 1);
    var note, deck, preset, offset;
    note, offset := ReadMaybeIdAt(bytes, start + 16, row, NoteField, record, start, 2);
    if note.Err? {
      return Err(note.error);
    }
    deck, offset := ReadMaybeIdAt(bytes, offset, row, DeckField, record, start, 4);
    if deck.Err? {
      return Err(deck.error);
    }
    preset, offset := ReadMaybeIdAt(bytes, offset, row, PresetField, record, start, 6);
    if preset.Err? {
      return Err(preset.error);
    }
    var day := ReadFiniteAt(bytes, offset, row, DayOffsetField, record, start, 8);
    if day.Err? {
      return Err(day.error);
    }
    var days := ReadFiniteAt(bytes, offset + 8, row, ElapsedDaysField, record, start, 9);
    if days.Err? {
      return Err(days.error);
    }
    var seconds := ReadFiniteAt(bytes, offset + 16, row, ElapsedSecondsField, record, start, 10);
    if seconds.Err? {
      return Err(seconds.error);
    }
    return Ok(ReviewInput(ReadI64(reviewId), ReadI64(cardId), note.value, deck.value, preset.value,
                          day.value, days.value, seconds.value, None, None, None));
  }

  method ReadRecord(bytes: seq<byte>, start: nat, row: nat, ghost parse: Parser)
    returns (r: Result<Review, PayloadError>)
    requires start + RECORD_LEN <= |bytes| && parse == ProcessParser()
    ensures r == parse(bytes[start..start + RECORD_LEN], row)
  {
    ghost var record := bytes[start..start + RECORD_LEN];
    var prefix := ReadPrefix(bytes, start, row, record);
    if prefix.Err? {
      return prefix;
    }
    var rating := ReadWord(bytes, start + 88, record, start, 11);
    var duration := ReadFiniteAt(bytes, start + 96, row, DurationField, record, start, 12);
    if duration.Err? {
      return Err(duration.error);
    }
    var state := ReadFiniteAt(bytes, start + 104, row, StateField, record, start, 13);
    if state.Err? {
      return Err(state.error);
    }
    return Ok(prefix.value.(rating := Some(ReadI64(rating)), duration := Some(duration.value),
                            state := Some(state.value)));
  }

  method ReadPredictionRecord(bytes: seq<byte>, start: nat, row: nat, ghost parse: Parser)
    returns (r: Result<Review, PayloadError>)
    requires start + PREDICTION_RECORD_LEN <= |bytes| && parse == PredictionParser()
    ensures r == parse(bytes[start..start + PREDICTION_RECORD_LEN], row)
  {
    r := ReadPrefix(bytes, start, row, bytes[start..start + PREDICTION_RECORD_LEN]);
  }

  lemma {:induction false} RecordAt(bytes: seq<byte>, len: nat, n: nat, k: nat)
    requires len > 0 && |bytes| == n * len && k < n
    ensures |Records(bytes, len)| == n && k * len + len <= |bytes|
    ensures Records(bytes, len)[k] == bytes[k * len..k * len + len]
  {
    RecordsCount(bytes, len, n);
    MultipleGap(k, n, len);
    if k > 0 {
      OneMore(n, len);
      OneMore(k, len);
      RecordAt(bytes[len..], len, n - 1, k - 1);
      SliceOfRest(bytes, len, (k - 1) * len, len);
    }
  }

  lemma ParseErrorStays(records: seq<seq<byte>>, parse: Parser, k: nat, e: PayloadError)
    requires k <= |records| && ParseAll(records[..k], parse) == Err(e)
    ensures ParseAll(records, parse) == Err(e)
    decreases |records| - k
  {
    if k < |records| {
      var longer := records[..k + 1];
      assert longer[..|longer| - 1] == records[..k];
      assert ParseAll(longer, parse) == Err(e);
      ParseErrorStays(records, parse, k + 1, e);
    } else {
      assert records[..k] == records;
    }
  }

  /** One more record: its row joins the rows so far, or its error is the error of the whole list. */
  lemma ParseStep(records: seq<seq<byte>>, parse: Parser, k: nat, rows: seq<Review>)
    requires k < |records| && ParseAll(records[..k], parse) == Ok(rows)
    ensures match parse(records[k], k)
      case Err(e) => ParseAll(records, parse) == Err(e)
      case Ok(row) => ParseAll(records[..k + 1], parse) == Ok(rows + [row])
  {
    assert records[..k + 1][..k] == records[..k];
    if parse(records[k], k).Err? {
      ParseErrorStays(records, parse, k + 1, parse(records[k], k).error);
    }
  }

  method AddRow(parsed: Result<Review, PayloadError>, rows: seq<Review>, ghost records: seq<seq<byte>>,
                ghost parse: Parser, ghost row: nat)
    returns (r: Result<seq<Review>, PayloadError>)
    requires row < |records| && ParseAll(records[..row], parse) == Ok(rows) && parse(records[row], row) == parsed
    ensures if r.Err? then ParseAll(records, parse) == r else ParseAll(records[..row + 1], parse) == r
  {
    ParseStep(records, parse, row, rows);
    r := if parsed.Err? then Err(parsed.error) else Ok(rows + [parsed.value]);
  }

  method AddProcessRow(bytes: seq<byte>, rowCount: nat, row: nat, offset: nat, rows: seq<Review>)
    returns (r: Result<seq<Review>, PayloadError>)
    requires |bytes| == rowCount * RECORD_LEN && row < rowCount == |Records(bytes, RECORD_LEN)|
        && offset == row * RECORD_LEN
    requires ParseAll(Records(bytes, RECORD_LEN)[..row], ProcessParser()) == Ok(rows)
    ensures if r.Err? then ParseAll(Records(bytes, RECORD_LEN), ProcessParser()) == r
            else ParseAll(Records(bytes, RECORD_LEN)[..row + 1], ProcessParser()) == r
  {
    ghost var records, parse := Records(bytes, RECORD_LEN), ProcessParser();
    assert offset + RECORD_LEN <= |bytes| && records[row] == bytes[offset..offset + RECORD_LEN] by {
      RecordAt(bytes, RECORD_LEN, rowCount, row);
    }
    var parsed := ReadRecord(bytes, offset, row, parse);
    r := AddRow(parsed, rows, records, parse, row);
  }

  method ParseProcessRecords(bytes: seq<byte>, rowCount: nat) returns (r: Result<seq<Review>, PayloadError>)
    requires |bytes| == rowCount * RECORD_LEN
    ensures r == ParseAll(Records(bytes, RECORD_LEN), ProcessParser())
  {
    RecordsCount(bytes, RECORD_LEN, rowCount);
    var rows, offset := [], 0;
    for row := 0 to rowCount
      invariant offset == row * RECORD_LEN && ParseAll(Records(bytes, RECORD_LEN)[..row], ProcessParser()) == Ok(rows)
    {
      var added := AddProcessRow(bytes, rowCount, row, offset, rows);
      if added.Err? {
        return added;
      }
      rows := added.value;
      offset := offset + RECORD_LEN;
    }
    assert Records(bytes, RECORD_LEN)[..rowCount] == Records(bytes, RECORD_LEN);
    return Ok(rows);
  }

  method ParseProcessReviewPayload(payload: seq<byte>) returns (r: Result<seq<Review>, PayloadError>)
    ensures r == ParsePayload(payload)
  {
    if |payload| < HEADER_LEN {
      return Err(ShortHeader);
    }
    if payload[..8] != MAGIC {
      return Err(BadMagic);
    }
    var rowCount := ReadU64(payload[8..16]);
    var expected := HEADER_LEN + RECORD_LEN * rowCount;
    if expected >= TWO_64 {
      return Err(LengthOverflow);
    }
    if |payload| != expected {
      return Err(LengthMismatch);
    }
    r := ParseProcessRecords(payload[HEADER_LEN..], rowCount);
  }

  method ParseProcessReviewRecordBuffer(bytes: seq<byte>) returns (r: Result<seq<Review>, PayloadError>)
    ensures r == ParseRecordBuffer(bytes)
  {
    if |bytes| % RECORD_LEN != 0 {
      return Err(NotWholeRecords);
    }
    r := ParseProcessRecords(bytes, |bytes| / RECORD_LEN);
  }

  method AddPredictionRow(bytes: seq<byte>, rowCount: nat, row: nat, offset: nat, rows: seq<Review>)
    returns (r: Result<seq<Review>, PayloadError>)
    requires |bytes| == rowCount * PREDICTION_RECORD_LEN && row < rowCount == |Records(bytes, PREDICTION_RECORD_LEN)|
    requires offset == row * PREDICTION_RECORD_LEN
    requires ParseAll(Records(bytes, PREDICTION_RECORD_LEN)[..row], PredictionParser()) == Ok(rows)
    ensures if r.Err? then ParseAll(Records(bytes, PREDICTION_RECORD_LEN), PredictionParser()) == r
            else ParseAll(Records(bytes, PREDICTION_RECORD_LEN)[..row + 1], PredictionParser()) == r
  {
    ghost var records, parse := Records(bytes, PREDICTION_RECORD_LEN), PredictionParser();
    assert offset + PREDICTION_RECORD_LEN <= |bytes|
        && records[row] == bytes[offset..offset + PREDICTION_RECORD_LEN] by {
      RecordAt(bytes, PREDICTION_RECORD_LEN, rowCount, row);
    }
    var parsed := ReadPredictionRecord(bytes, offset, row, parse);
    r := AddRow(parsed, rows, records, parse, row);
  }

  method ParsePredictionRecordBuffer(bytes: seq<byte>) returns (r: Result<seq<Review>, PayloadError>)
    ensures r == ParsePredictionBuffer(bytes)
  {
    if |bytes| % PREDICTION_RECORD_LEN != 0 {
      return Err(NotWholeRecords);
    }
    var rowCount := |bytes| / PREDICTION_RECORD_LEN;
    RecordsCount(bytes, PREDICTION_RECORD_LEN, rowCount);
    var rows, offset := [], 0;
    for row := 0 to rowCount
      invariant offset == row * PREDICTION_RECORD_LEN
      invariant ParseAll(Records(bytes, PREDICTION_RECORD_LEN)[..row], PredictionParser()) == Ok(rows)
    {
      var added := AddPredictionRow(bytes, rowCount, row, offset, rows);
      if added.Err? {
        return added;
      }
      rows := added.value;
      offset := offset + PREDICTION_RECORD_LEN;
    }
    assert Records(bytes, PREDICTION_RECORD_LEN)[..rowCount] == Records(bytes, PREDICTION_RECORD_LEN);
    return Ok(rows);
  }
}
