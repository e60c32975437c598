/** What prepared rows hold, and what reading a row of any origin answers. */
module FeatureRows {
  import opened Wrappers
  import opened ReviewRows
  import opened FeatureSpec

  // ----- Reading -----

  /**
   A number can be read unless the column is missing or a truth value; an integer is a number that is whole. The
   error names the column.
   */
  lemma ReadersMean(row: PreparedRow, column: Column)
    ensures GetF64(row, column).Ok? <==> column in row && !row[column].Bool?
    ensures GetF64(row, column).Err? ==>
      GetF64(row, column).error == if column in row then NotNumeric(column) else MissingField(column)
    ensures GetI64(row, column).Ok? <==>
      GetF64(row, column).Ok? && GetF64(row, column).value - GetF64(row, column).value.Floor as real == 0.0
    ensures GetI64(row, column).Ok? ==> GetF64(row, column) == Ok(GetI64(row, column).value as real)
    ensures GetI64(row, column).Err? ==>
      GetI64(row, column).error == if column in row then NotInteger(column) else MissingField(column)
  {
  }

  /** The row names an identity of this kind, and it has an encoding. */
  predicate EncodedAt<W>(s: Features<W>, row: PreparedRow, column: Column)
    requires column in s.encodings
  {
    GetI64(row, column).Ok? && GetI64(row, column).value in s.encodings[column]
  }

  ghost predicate AllEncodedAt<W>(s: Features<W>, row: PreparedRow)
    requires s.Valid()
    requires CardId in s.encodings && NoteId in s.encodings && DeckId in s.encodings && PresetId in s.encodings
  {
    && EncodedAt(s, row, CardId) && EncodedAt(s, row, NoteId) && EncodedAt(s, row, DeckId)
    && EncodedAt(s, row, PresetId)
  }

  lemma RestoreStep<W>(s: Features<W>, row: PreparedRow, k: nat, column: Column)
    requires s.Valid() && k < 4 && column == ID_SUBMODULES[k].0
    ensures NeedsRngRestore(s, row, k) ==
      if GetI64(row, column).Err? then Err(GetI64(row, column).error)
      else if EncodedAt(s, row, column) then NeedsRngRestore(s, row, k + 1)
      else Ok(true)
  {
  }

  lemma ValidHasSubmodules<W>(s: Features<W>)
    requires s.Valid()
    ensures CardId in s.encodings && NoteId in s.encodings && DeckId in s.encodings && PresetId in s.encodings
  {
    assert ID_SUBMODULES[0].0 == CardId && ID_SUBMODULES[1].0 == NoteId;
    assert ID_SUBMODULES[2].0 == DeckId && ID_SUBMODULES[3].0 == PresetId;
  }

  /** The first of card, note, deck and preset that has no encoding decides: an unreadable id, or a need for draws. */
  lemma RestoreMeans<W>(s: Features<W>, row: PreparedRow)
    requires s.Valid()
    ensures CardId in s.encodings && NoteId in s.encodings && DeckId in s.encodings && PresetId in s.encodings
    ensures NeedsRngRestore(s, row, 0) ==
      if !EncodedAt(s, row, CardId) then Unreadable(GetI64(row, CardId))
      else if !EncodedAt(s, row, NoteId) then Unreadable(GetI64(row, NoteId))
      else if !EncodedAt(s, row, DeckId) then Unreadable(GetI64(row, DeckId))
      else if !EncodedAt(s, row, PresetId) then Unreadable(GetI64(row, PresetId))
      else Ok(false)
  {
    ValidHasSubmodules(s);
    RestoreStep(s, row, 0, CardId);
    RestoreStep(s, row, 1, NoteId);
    RestoreStep(s, row, 2, DeckId);
    RestoreStep(s, row, 3, PresetId);
  }

  /** An id that could not be read is an error, another one is in need of draws. */
  function Unreadable(id: Result<int, FeatureError>): Result<bool, FeatureError> {
    if id.Err? then Err(id.error) else Ok(true)
  }

  /**
   For a row of any origin: batched prediction is allowed exactly when all four ids are read, encoded and recurrent;
   the only errors are those of an unreadable id behind encoded ones.
   */
  lemma BatchPredictMeans<W>(s: Features<W>, row: PreparedRow)
    requires s.Valid()
    ensures CardId in s.encodings && NoteId in s.encodings && DeckId in s.encodings && PresetId in s.encodings
    ensures CanBatchPredict(s, row) == Ok(true) <==>
      && AllEncodedAt(s, row)
      && GetI64(row, CardId).value in s.keys.cards && GetI64(row, NoteId).value in s.keys.notes
      && GetI64(row, DeckId).value in s.keys.decks && GetI64(row, PresetId).value in s.keys.presets
    ensures CanBatchPredict(s, row).Err? <==> NeedsRngRestore(s, row, 0).Err?
    ensures CanBatchPredict(s, row).Err? ==> CanBatchPredict(s, row) == NeedsRngRestore(s, row, 0)
  {
    RestoreMeans(s, row);
  }

  // ----- Prepared rows -----

  ghost predicate Holds(row: PreparedRow, column: Column, value: RowValue) {
    column in row && row[column] == value
  }

  /** The ids, where a missing note stands for the card and a missing deck or preset for none. */
  ghost predicate IdColumns(input: ReviewInput<real>, row: PreparedRow) {
    var none := 314_159_265_358_979_323;
    && Holds(row, ReviewId, Int(input.reviewId)) && Holds(row, CardId, Int(input.cardId))
    && Holds(row, NoteId, Int(if input.noteId.Present? then input.noteId.id else none + input.cardId))
    && Holds(row, DeckId, Int(if input.deckId.Present? then input.deckId.id else none))
    && Holds(row, PresetId, Int(if input.presetId.Present? then input.presetId.id else none))
  }

  /** The elapsed times, and the card's sums with them. */
  ghost predicate TimeColumns<W>(s: Features<W>, input: ReviewInput<real>, row: PreparedRow) {
    var card := input.cardId;
    && Holds(row, ElapsedDays, Float(input.elapsedDays)) && Holds(row, ElapsedSeconds, Float(input.elapsedSeconds))
    && Holds(row, ElapsedDaysCumulative,
             Float((if card in s.daysSum then s.daysSum[card] else 0.0) + input.elapsedDays))
    && Holds(row, ElapsedSecondsCumulative,
             Float((if card in s.secondsSum then s.secondsSum[card] else 0.0) + input.elapsedSeconds))
  }

  /** The day since the first review, and the card's first day. */
  ghost predicate DayColumns<W>(s: Features<W>, input: ReviewInput<real>, row: PreparedRow) {
    var card := input.cardId;
    var day := if s.firstDayOffset.Some? then input.dayOffset - s.firstDayOffset.value else 0.0;
    Holds(row, DayOffset, Float(day))
        && Holds(row, DayOffsetFirst, Float(if card in s.firstDay then s.firstDay[card] else day))
  }

  /** One row has what the other has in these columns. */
  ghost predicate Keeps(row: PreparedRow, other: PreparedRow, columns: set<Column>) {
    forall column :: column in columns && column in row ==> column in other && other[column] == row[column]
  }

  function IdSet(): set<Column> {
    {ReviewId, CardId, NoteId, DeckId, PresetId}
  }

  function TimeSet(): set<Column> {
    {ElapsedDays, ElapsedSeconds, ElapsedDaysCumulative, ElapsedSecondsCumulative}
  }

  function DaySet(): set<Column> {
    {DayOffset, DayOffsetFirst}
  }

  lemma IdsHold(input: ReviewInput<real>)
    ensures IdColumns(input, WithIds(map[], input))
  {
  }

  lemma TimesHold<W>(row: PreparedRow, c: Context<W>, s: Features<W>, input: ReviewInput<real>)
    ensures TimeColumns(s, input, WithElapsed(row, c, s, input))
  {
  }

  lemma DaysHold<W>(row: PreparedRow, c: Context<W>, s: Features<W>, input: ReviewInput<real>)
    ensures DayColumns(s, input, WithDayAndCounters(row, c, s, input))
  {
  }

  lemma ElapsedKeepsId<W>(row: PreparedRow, c: Context<W>, s: Features<W>, input: ReviewInput<real>, column: Column)
    requires column.ReviewId? || column.CardId? || column.NoteId? || column.DeckId? || column.PresetId?
    ensures column in row ==>
      column in WithElapsed(row, c, s, input) && WithElapsed(row, c, s, input)[column] == row[column]
  {
  }

  lemma ElapsedKeeps<W>(row: PreparedRow, c: Context<W>, s: Features<W>, input: ReviewInput<real>)
    ensures Keeps(row, WithElapsed(row, c, s, input), IdSet())
  {
    forall column | column in IdSet() && column in row
      ensures column in WithElapsed(row, c, s, input) && WithElapsed(row, c, s, input)[column] == row[column]
    {
      ElapsedKeepsId(row, c, s, input, column);
    }
  }

  predicate NeitherDayNorCounter(column: Column) {
    && column != DayOffset && column != DayOffsetFirst && column != DayOffsetDiff && column != DayOfWeek
    && column != DiffNewCards && column != DiffReviews && column != CumNewCardsToday && column != CumReviewsToday
  }

  lemma DaysKeepOther<W>(row: PreparedRow, c: Context<W>, s: Features<W>, input: ReviewInput<real>, column: Column)
    requires NeitherDayNorCounter(column) && column in row
    ensures column in WithDayAndCounters(row, c, s, input)
    ensures WithDayAndCounters(row, c, s, input)[column] == row[column]
  {
  }

  lemma KeepsPlain(row: PreparedRow, other: PreparedRow)
    requires forall column :: NeitherDayNorCounter(column) && column in row ==>
      column in other && other[column] == row[column]
    ensures Keeps(row, other, IdSet() + TimeSet())
  {
    assert forall column :: column in IdSet() + TimeSet() ==> NeitherDayNorCounter(column);
  }

  lemma DaysKeep<W>(row: PreparedRow, c: Context<W>, s: Features<W>, input: ReviewInput<real>, other: PreparedRow)
    requires other == WithDayAndCounters(row, c, s, input)
    ensures Keeps(row, other, IdSet() + TimeSet())
  {
    forall column | NeitherDayNorCounter(column) && column in row
      ensures column in other && other[column] == row[column]
    {
      DaysKeepOther(row, c, s, input, column);
    }
    KeepsPlain(row, other);
  }

  lemma PredictKeeps(row: PreparedRow)
    ensures Keeps(row, WithPredictFields(row), IdSet() + TimeSet() + DaySet())
  {
  }

  lemma ProcessKeeps<W>(c: Context<W>, row: PreparedRow, rating: int, duration: real, state: real)
    ensures Keeps(row, WithProcessFields(c, row, rating, duration, state), IdSet() + TimeSet() + DaySet())
  {
  }

  lemma KeptIds(input: ReviewInput<real>, row: PreparedRow, other: PreparedRow, columns: set<Column>)
    requires IdColumns(input, row) && Keeps(row, other, columns) && IdSet() <= columns
    ensures IdColumns(input, other)
  {
    assert forall column :: column in IdSet() ==> column in columns;
  }

  lemma KeptTimes<W>(s: Features<W>, input: ReviewInput<real>, row: PreparedRow, other: PreparedRow,
                     columns: set<Column>)
    requires TimeColumns(s, input, row) && Keeps(row, other, columns) && TimeSet() <= columns
    ensures TimeColumns(s, input, other)
  {
    assert forall column :: column in TimeSet() ==> column in columns;
  }

  lemma KeptDays<W>(s: Features<W>, input: ReviewInput<real>, row: PreparedRow, other: PreparedRow,
                    columns: set<Column>)
    requires DayColumns(s, input, row) && Keeps(row, other, columns) && DaySet() <= columns
    ensures DayColumns(s, input, other)
  {
    assert forall column :: column in DaySet() ==> column in columns;
  }

  ghost predicate PlainColumns<W>(s: Features<W>, input: ReviewInput<real>, row: PreparedRow) {
    IdColumns(input, row) && TimeColumns(s, input, row) && DayColumns(s, input, row)
  }

  lemma SameHolds<W>(c: Context<W>, s: Features<W>, input: ReviewInput<real>)
    ensures PlainColumns(s, input, AddSame(c, s, input))
  {
    var row1 := WithIds(map[], input);
    var row2 := WithElapsed(row1, c, s, input);
    IdsHold(input);
    ElapsedKeeps(row1, c, s, input);
    KeptIds(input, row1, row2, IdSet());
    TimesHold(row1, c, s, input);
    DaysKeep(row2, c, s, input, AddSame(c, s, input));
    KeptIds(input, row2, AddSame(c, s, input), IdSet() + TimeSet());
    KeptTimes(s, input, row2, AddSame(c, s, input), IdSet() + TimeSet());
    DaysHold(row2, c, s, input);
  }

  lemma KeptPlain<W>(s: Features<W>, input: ReviewInput<real>, row: PreparedRow, other: PreparedRow)
    requires PlainColumns(s, input, row) && Keeps(row, other, IdSet() + TimeSet() + DaySet())
    ensures PlainColumns(s, input, other)
  {
    KeptIds(input, row, other, IdSet() + TimeSet() + DaySet());
    KeptTimes(s, input, row, other, IdSet() + TimeSet() + DaySet());
    KeptDays(s, input, row, other, IdSet() + TimeSet() + DaySet());
  }

  /** Ids, elapsed times, sums and days stand in both rows as they are. */
  lemma PreparedRowsHold<W>(c: Context<W>, s: Features<W>, input: ReviewInput<real>)
    ensures PlainColumns(s, input, PreparePredictRow(c, s, input))
    ensures input.Complete() ==>
      PrepareProcessRow(c, s, input).Ok? && PlainColumns(s, input, PrepareProcessRow(c, s, input).value)
  {
    var row := AddSame(c, s, input);
    SameHolds(c, s, input);
    PredictKeeps(row);
    KeptPlain(s, input, row, PreparePredictRow(c, s, input));
    if input.Complete() {
      ProcessKeeps(c, row, input.rating.value, input.duration.value, input.state.value);
      KeptPlain(s, input, row, PrepareProcessRow(c, s, input).value);
    }
  }

  lemma PredictSkips(row: PreparedRow)
    ensures Holds(WithPredictFields(row), Skip, Bool(true))
  {
  }

  lemma ProcessCounts<W>(c: Context<W>, row: PreparedRow, rating: int, duration: real, state: real)
    ensures Holds(WithProcessFields(c, row, rating, duration, state), Skip, Bool(false))
  {
  }

  /** A prediction is skipped in training, a review is not; the first field it lacks is the error. */
  lemma PreparedRowsSkip<W>(c: Context<W>, s: Features<W>, input: ReviewInput<real>)
    ensures Holds(PreparePredictRow(c, s, input), Skip, Bool(true))
    ensures input.Complete() ==>
      PrepareProcessRow(c, s, input).Ok? && Holds(PrepareProcessRow(c, s, input).value, Skip, Bool(false))
    ensures !input.Complete() ==>
      PrepareProcessRow(c, s, input) == Err(if input.rating.None? then MissingRating
                                            else if input.duration.None? then MissingDuration
                                            else MissingState)
  {
    PredictSkips(AddSame(c, s, input));
    if input.Complete() {
      ProcessCounts(c, AddSame(c, s, input), input.rating.value, input.duration.value, input.state.value);
    }
  }
}
