/** The fused feature path against the prepared-row path, for every state and every history. */
module FeatureEquivalence {
  import opened Wrappers
  import opened ReviewRows
  import opened BlockGenerator
  import opened FeatureSpec

  // ----- Card features of prepared rows -----

  ghost predicate ColumnIs<W>(c: Context<W>, row: PreparedRow, column: Column, value: real) {
    GetF64(row, column).Ok? && c.scale.toF32(GetF64(row, column).value) == value
  }

  lemma {:induction false} CardFeaturesAre<W>(c: Context<W>, row: PreparedRow, values: seq<real>, k: nat)
    requires k <= |CARD_FEATURE_COLUMNS| == |values|
    requires forall j :: 0 <= j < k ==> ColumnIs(c, row, CARD_FEATURE_COLUMNS[j], values[j])
    ensures CardFeatures(c, row, k) == Ok(values[..k])
  {
    if k > 0 {
      CardFeaturesAre(c, row, values, k - 1);
      assert ColumnIs(c, row, CARD_FEATURE_COLUMNS[k - 1], values[k - 1]);
      assert values[..k] == values[..k - 1] + [values[k - 1]];
    }
  }

  /** The columns that prediction and processing share come from `AddSame`. */
  predicate Shared(j: nat) {
    j < 8 || 13 <= j < 22
  }

  predicate IdColumn(column: Column) {
    column in {ReviewId, CardId, NoteId, DeckId, PresetId, NoteIdIsNan, DeckIdIsNan, PresetIdIsNan}
  }

  predicate DayOrCounterColumn(column: Column) {
    column in {DayOffset, DayOffsetFirst, DayOffsetDiff, DayOfWeek, DiffNewCards, DiffReviews, CumNewCardsToday,
               CumReviewsToday}
  }

  lemma ElapsedKeepsIds<W>(row: PreparedRow, c: Context<W>, s: Features<W>, input: ReviewInput<real>, column: Column)
    requires IdColumn(column)
    ensures GetF64(WithElapsed(row, c, s, input), column) == GetF64(row, column)
    ensures GetI64(WithElapsed(row, c, s, input), column) == GetI64(row, column)
  {
  }

  lemma CountersKeepOthers<W>(row: PreparedRow, c: Context<W>, s: Features<W>, input: ReviewInput<real>, column: Column)
    requires !DayOrCounterColumn(column)
    ensures GetF64(WithDayAndCounters(row, c, s, input), column) == GetF64(row, column)
    ensures GetI64(WithDayAndCounters(row, c, s, input), column) == GetI64(row, column)
  {
  }

  /** The scaled elapsed times, by column. */
  function ElapsedValue(scale: Scaling, q: CardInputs, column: Column): Option<real> {
    match column
    case ScaledElapsedDays => Some(scale.elapsedDays(q.elapsedDays))
    case ScaledElapsedDaysCumulative => Some(scale.elapsedDaysCumulative(q.daysCumulative))
    case ScaledElapsedSeconds => Some(scale.elapsedSeconds(q.elapsedSeconds))
    case ElapsedSecondsSin => Some(scale.secondsSin(q.elapsedSeconds))
    case ElapsedSecondsCos => Some(scale.secondsCos(q.elapsedSeconds))
    case ScaledElapsedSecondsCumulative => Some(scale.elapsedSecondsCumulative(q.secondsCumulative))
    case ElapsedSecondsCumulativeSin => Some(scale.secondsSin(q.secondsCumulative))
    case ElapsedSecondsCumulativeCos => Some(scale.secondsCos(q.secondsCumulative))
    case _ => None
  }

  lemma ElapsedWritten<W>(row: PreparedRow, c: Context<W>, s: Features<W>, input: ReviewInput<real>, column: Column)
    requires ElapsedValue(c.scale, CardInputsOf(s, input), column).Some?
    ensures GetF64(WithElapsed(row, c, s, input), column)
        == Ok(ElapsedValue(c.scale, CardInputsOf(s, input), column).value)
  {
  }

  lemma ElapsedRead(scale: Scaling, q: CardInputs, j: nat)
    requires j < 8
    ensures ElapsedValue(scale, q, CARD_FEATURE_COLUMNS[j]).Some?
    ensures CardArray(scale, q)[j] == scale.toF32(ElapsedValue(scale, q, CARD_FEATURE_COLUMNS[j]).value)
  {
  }

  lemma ElapsedColumn<W>(row: PreparedRow, c: Context<W>, s: Features<W>, input: ReviewInput<real>, j: nat)
    requires j < 8
    ensures ColumnIs(c, WithElapsed(row, c, s, input), CARD_FEATURE_COLUMNS[j], QueryCardFeatures(c, s, input)[j])
  {
    ElapsedRead(c.scale, CardInputsOf(s, input), j);
    ElapsedWritten(row, c, s, input, CARD_FEATURE_COLUMNS[j]);
  }

  lemma MissingIdColumn<W>(row: PreparedRow, c: Context<W>, s: Features<W>, input: ReviewInput<real>, j: nat)
    requires 13 <= j < 16
    ensures ColumnIs(c, WithIds(row, input), CARD_FEATURE_COLUMNS[j], QueryCardFeatures(c, s, input)[j])
  {
  }

  lemma CounterColumn<W>(row: PreparedRow, c: Context<W>, s: Features<W>, input: ReviewInput<real>, j: nat)
    requires 16 <= j < 22
    ensures ColumnIs(c, WithDayAndCounters(row, c, s, input), CARD_FEATURE_COLUMNS[j],
                     QueryCardFeatures(c, s, input)[j])
  {
  }

  lemma SharedColumn<W>(c: Context<W>, s: Features<W>, input: ReviewInput<real>, j: nat)
    requires Shared(j)
    ensures ColumnIs(c, AddSame(c, s, input), CARD_FEATURE_COLUMNS[j], QueryCardFeatures(c, s, input)[j])
  {
    var row1 := WithIds(map[], input);
    var row2 := WithElapsed(row1, c, s, input);
    if j < 8 {
      ElapsedColumn(row1, c, s, input, j);
      CountersKeepOthers(row2, c, s, input, CARD_FEATURE_COLUMNS[j]);
    } else if j < 16 {
      MissingIdColumn(map[], c, s, input, j);
      ElapsedKeepsIds(row1, c, s, input, CARD_FEATURE_COLUMNS[j]);
      CountersKeepOthers(row2, c, s, input, CARD_FEATURE_COLUMNS[j]);
    } else {
      CounterColumn(row2, c, s, input, j);
    }
  }

  predicate Inherited(column: Column) {
    !column.Rating? && column != IsQuery && column != Skip && column != ScaledDuration && column != ScaledState
  }

  lemma PredictKeepsColumn(row: PreparedRow, column: Column)
    requires Inherited(column)
    ensures GetF64(WithPredictFields(row), column) == GetF64(row, column)
    ensures GetI64(WithPredictFields(row), column) == GetI64(row, column)
  {
  }

  lemma ProcessKeepsColumn<W>(c: Context<W>, row: PreparedRow, rating: int, duration: real, state: real, column: Column)
    requires Inherited(column)
    ensures GetF64(WithProcessFields(c, row, rating, duration, state), column) == GetF64(row, column)
    ensures GetI64(WithProcessFields(c, row, rating, duration, state), column) == GetI64(row, column)
  {
  }

  lemma PredictOwnColumn<W>(c: Context<W>, s: Features<W>, input: ReviewInput<real>, row: PreparedRow, j: nat)
    requires c.scale.Sane() && j < 24 && !Shared(j)
    ensures ColumnIs(c, WithPredictFields(row), CARD_FEATURE_COLUMNS[j], QueryCardFeatures(c, s, input)[j])
  {
  }

  lemma ProcessOwnColumn<W>(c: Context<W>, s: Features<W>, input: ReviewInput<real>, row: PreparedRow, j: nat)
    requires c.scale.Sane() && input.Complete() && j < 24 && !Shared(j)
    ensures ColumnIs(c, WithProcessFields(c, row, input.rating.value, input.duration.value, input.state.value),
                     CARD_FEATURE_COLUMNS[j], ProcessCardFeatures(c, s, input)[j])
  {
  }

  lemma ProcessSharedColumn<W>(c: Context<W>, s: Features<W>, input: ReviewInput<real>, row: PreparedRow, j: nat)
    requires input.Complete() && Shared(j)
    requires ColumnIs(c, row, CARD_FEATURE_COLUMNS[j], QueryCardFeatures(c, s, input)[j])
    ensures ColumnIs(c, WithProcessFields(c, row, input.rating.value, input.duration.value, input.state.value),
                     CARD_FEATURE_COLUMNS[j], ProcessCardFeatures(c, s, input)[j])
  {
    ProcessKeepsColumn(c, row, input.rating.value, input.duration.value, input.state.value, CARD_FEATURE_COLUMNS[j]);
  }

  lemma PredictRowColumn<W>(c: Context<W>, s: Features<W>, input: ReviewInput<real>, j: nat)
    requires c.scale.Sane() && j < 24
    ensures ColumnIs(c, PreparePredictRow(c, s, input), CARD_FEATURE_COLUMNS[j], QueryCardFeatures(c, s, input)[j])
  {
    if Shared(j) {
      SharedColumn(c, s, input, j);
      PredictKeepsColumn(AddSame(c, s, input), CARD_FEATURE_COLUMNS[j]);
    } else {
      PredictOwnColumn(c, s, input, AddSame(c, s, input), j);
    }
  }

  lemma ProcessRowColumn<W>(c: Context<W>, s: Features<W>, input: ReviewInput<real>, j: nat)
    requires c.scale.Sane() && input.Complete() && j < 24
    ensures ColumnIs(c, PrepareProcessRow(c, s, input).value, CARD_FEATURE_COLUMNS[j],
                     ProcessCardFeatures(c, s, input)[j])
  {
    if Shared(j) {
      ProcessSharedColumn(c, s, input, AddSame(c, s, input), j) by {
        SharedColumn(c, s, input, j);
      }
    } else {
      ProcessOwnColumn(c, s, input, AddSame(c, s, input), j);
    }
  }

  lemma PredictRowCards<W>(c: Context<W>, s: Features<W>, input: ReviewInput<real>)
    requires c.scale.Sane()
    ensures CardFeatures(c, PreparePredictRow(c, s, input), |CARD_FEATURE_COLUMNS|)
        == Ok(QueryCardFeatures(c, s, input))
  {
    var row, values := PreparePredictRow(c, s, input), QueryCardFeatures(c, s, input);
    forall j | 0 <= j < |values| ensures ColumnIs(c, row, CARD_FEATURE_COLUMNS[j], values[j]) {
      PredictRowColumn(c, s, input, j);
    }
    CardFeaturesAre(c, row, values, |values|);
    assert values[..|values|] == values;
  }

  lemma ProcessRowCards<W>(c: Context<W>, s: Features<W>, input: ReviewInput<real>)
    requires c.scale.Sane() && input.Complete()
    ensures CardFeatures(c, PrepareProcessRow(c, s, input).value, |CARD_FEATURE_COLUMNS|)
        == Ok(ProcessCardFeatures(c, s, input))
  {
    var row, values := PrepareProcessRow(c, s, input).value, ProcessCardFeatures(c, s, input);
    forall j | 0 <= j < |values| ensures ColumnIs(c, row, CARD_FEATURE_COLUMNS[j], values[j]) {
      ProcessRowColumn(c, s, input, j);
    }
    CardFeaturesAre(c, row, values, |values|);
    assert values[..|values|] == values;
  }

  // ----- Identity encodings -----

  ghost predicate RowHasIds(row: PreparedRow, ids: Ids) {
    forall k :: 0 <= k < 4 ==> GetI64(row, ID_SUBMODULES[k].0) == Ok(IdOf(ids, k))
  }

  lemma {:induction false} SameEncodingsSameValues<W>(s: Features<W>, t: Features<W>, ids: Ids, k: nat)
    requires s.Valid() && t.Valid() && k <= 4
    requires forall j :: 0 <= j < k ==> IdOf(ids, j) in s.encodings[ID_SUBMODULES[j].0]
    requires forall j :: 0 <= j < k ==> s.encodings[ID_SUBMODULES[j].0] == t.encodings[ID_SUBMODULES[j].0]
    ensures IdValues(s, ids, k) == IdValues(t, ids, k)
  {
    if k > 0 {
      SameEncodingsSameValues(s, t, ids, k - 1);
    }
  }

  lemma FillStepKeepsEarlier<W>(c: Context<W>, s: Features<W>, ids: Ids, k: nat)
    requires s.Valid() && 0 < k <= 4
    ensures IdValues(FillEncodings(c, s, ids, k), ids, k - 1) == IdValues(FillEncodings(c, s, ids, k - 1), ids, k - 1)
  {
    SameEncodingsSameValues(FillEncodings(c, s, ids, k - 1), FillEncodings(c, s, ids, k), ids, k - 1);
  }

  /** With storing, the row path fills exactly the missing encodings and reads them all. */
  lemma {:induction false} StoringFills<W>(c: Context<W>, s: Features<W>, row: PreparedRow, ids: Ids, k: nat)
    requires s.Valid() && k <= 4 && RowHasIds(row, ids)
    ensures EncodeRow(c, s, row, k, true)
        == (FillEncodings(c, s, ids, k), Ok(IdValues(FillEncodings(c, s, ids, k), ids, k)))
  {
    if k > 0 {
      StoringFills(c, s, row, ids, k - 1);
      FillStepKeepsEarlier(c, s, ids, k);
    }
  }

  /** Without storing, it draws the same encodings and leaves the generator where storing would. */
  lemma {:induction false} ObservingDrawsTheSame<W>(c: Context<W>, s: Features<W>, row: PreparedRow, ids: Ids, k: nat)
    requires s.Valid() && k <= 4 && RowHasIds(row, ids)
    ensures EncodeRow(c, s, row, k, false)
         == (s.(rng := FillEncodings(c, s, ids, k).rng), Ok(IdValues(FillEncodings(c, s, ids, k), ids, k)))
  {
    if k > 0 {
      ObservingDrawsTheSame(c, s, row, ids, k - 1);
      FillStepKeepsEarlier(c, s, ids, k);
    }
  }

  lemma {:induction false} NoRestoreNeeded<W>(s: Features<W>, row: PreparedRow, ids: Ids, k: nat)
    requires s.Valid() && k <= 4 && RowHasIds(row, ids)
    ensures NeedsRngRestore(s, row, k)
         == Ok(exists j :: k <= j < 4 && IdOf(ids, j) !in s.encodings[ID_SUBMODULES[j].0])
    decreases 4 - k
  {
    if k < 4 {
      NoRestoreNeeded(s, row, ids, k + 1);
    }
  }

  lemma {:induction false} NothingToFill<W>(c: Context<W>, s: Features<W>, ids: Ids, k: nat)
    requires s.Valid() && k <= 4
    requires forall j :: 0 <= j < k ==> IdOf(ids, j) in s.encodings[ID_SUBMODULES[j].0]
    ensures FillEncodings(c, s, ids, k) == s
  {
    if k > 0 {
      NothingToFill(c, s, ids, k - 1);
    }
  }

  lemma {:induction false} FillKeepsDimensions<W>(c: Context<W>, s: Features<W>, ids: Ids, k: nat)
    requires s.Valid() && s.Dimensioned() && k <= 4
    ensures FillEncodings(c, s, ids, k).Dimensioned()
  {
    if k > 0 {
      FillKeepsDimensions(c, s, ids, k - 1);
    }
  }

  lemma IdValuesLength<W>(s: Features<W>, ids: Ids)
    requires s.Valid() && s.Dimensioned()
    requires forall j :: 0 <= j < 4 ==> IdOf(ids, j) in s.encodings[ID_SUBMODULES[j].0]
    ensures |IdValues(s, ids, 4)| == 40
  {
    assert |IdValues(s, ids, 1)| == 12;
    assert |IdValues(s, ids, 2)| == 24;
    assert |IdValues(s, ids, 3)| == 32;
  }

  // ----- Prediction observes -----

  lemma PreparedRowsHaveIds<W>(c: Context<W>, s: Features<W>, input: ReviewInput<real>)
    ensures RowHasIds(PreparePredictRow(c, s, input), NormalizedReviewIds(input))
    ensures input.Complete() ==> RowHasIds(PrepareProcessRow(c, s, input).value, NormalizedReviewIds(input))
  {
    var base, ids := AddSame(c, s, input), NormalizedReviewIds(input);
    forall k | 0 <= k < 4
      ensures GetI64(PreparePredictRow(c, s, input), ID_SUBMODULES[k].0) == Ok(IdOf(ids, k))
      ensures input.Complete() ==> GetI64(PrepareProcessRow(c, s, input).value, ID_SUBMODULES[k].0) == Ok(IdOf(ids, k))
    {
      AddSameIds(c, s, input, k);
      PredictKeepsColumn(base, ID_SUBMODULES[k].0);
      if input.Complete() {
        ProcessKeepsColumn(c, base, input.rating.value, input.duration.value, input.state.value, ID_SUBMODULES[k].0);
      }
    }
  }

  lemma WithIdsHas(row: PreparedRow, input: ReviewInput<real>, k: nat)
    requires k < 4
    ensures GetI64(WithIds(row, input), ID_SUBMODULES[k].0) == Ok(IdOf(NormalizedReviewIds(input), k))
  {
  }

  lemma AddSameIds<W>(c: Context<W>, s: Features<W>, input: ReviewInput<real>, k: nat)
    requires k < 4
    ensures GetI64(AddSame(c, s, input), ID_SUBMODULES[k].0) == Ok(IdOf(NormalizedReviewIds(input), k))
  {
    var row1 := WithIds(map[], input);
    WithIdsHas(map[], input, k);
    ElapsedKeepsIds(row1, c, s, input, ID_SUBMODULES[k].0);
    CountersKeepOthers(WithElapsed(row1, c, s, input), c, s, input, ID_SUBMODULES[k].0);
  }

  lemma WithDayHas<W>(row: PreparedRow, c: Context<W>, s: Features<W>, input: ReviewInput<real>)
    ensures GetF64(WithDayAndCounters(row, c, s, input), DayOffset) == Ok(RelativeDay(s, input))
    ensures GetF64(WithDayAndCounters(row, c, s, input), DayOffsetFirst)
        == Ok(Lookup(s.firstDay, input.cardId, RelativeDay(s, input)))
  {
  }

  lemma WithElapsedHas<W>(row: PreparedRow, c: Context<W>, s: Features<W>, input: ReviewInput<real>)
    ensures GetF64(WithElapsed(row, c, s, input), ElapsedDays) == Ok(input.elapsedDays)
    ensures GetF64(WithElapsed(row, c, s, input), ElapsedSeconds) == Ok(input.elapsedSeconds)
  {
  }

  lemma AddSameTimes<W>(c: Context<W>, s: Features<W>, input: ReviewInput<real>)
    ensures GetF64(AddSame(c, s, input), DayOffset) == Ok(RelativeDay(s, input))
    ensures GetF64(AddSame(c, s, input), DayOffsetFirst) == Ok(Lookup(s.firstDay, input.cardId, RelativeDay(s, input)))
    ensures GetF64(AddSame(c, s, input), ElapsedDays) == Ok(input.elapsedDays)
    ensures GetF64(AddSame(c, s, input), ElapsedSeconds) == Ok(input.elapsedSeconds)
  {
    var row1 := WithIds(map[], input);
    var row2 := WithElapsed(row1, c, s, input);
    WithElapsedHas(row1, c, s, input);
    WithDayHas(row2, c, s, input);
    CountersKeepOthers(row2, c, s, input, ElapsedDays);
    CountersKeepOthers(row2, c, s, input, ElapsedSeconds);
  }

  lemma FeatureVectorParts<W>(c: Context<W>, s: Features<W>, row: PreparedRow, mutate: bool,
                              cards: seq<real>, t: Features<W>, values: seq<real>, days: seq<real>)
    requires s.Valid()
    requires CardFeatures(c, row, |CARD_FEATURE_COLUMNS|) == Ok(cards)
    requires EncodeRow(c, s, row, 4, mutate) == (t, Ok(values))
    requires DayFeatures(c, row) == Ok(days)
    ensures FeatureVector(c, s, row, mutate) == (t, Ok(cards + (values + days)))
  {
    assert cards + values + days == cards + (values + days);
  }

  lemma PredictRowDays<W>(c: Context<W>, s: Features<W>, input: ReviewInput<real>)
    ensures DayFeatures(c, PreparePredictRow(c, s, input)) == Ok(DayValues(c, s, input))
  {
    AddSameTimes(c, s, input);
    PredictKeepsColumn(AddSame(c, s, input), DayOffset);
    PredictKeepsColumn(AddSame(c, s, input), DayOffsetFirst);
  }

  lemma ProcessRowDays<W>(c: Context<W>, s: Features<W>, input: ReviewInput<real>)
    requires input.Complete()
    ensures DayFeatures(c, PrepareProcessRow(c, s, input).value) == Ok(DayValues(c, s, input))
  {
    AddSameTimes(c, s, input);
    ProcessKeepsColumn(c, AddSame(c, s, input), input.rating.value, input.duration.value, input.state.value, DayOffset);
    ProcessKeepsColumn(c, AddSame(c, s, input), input.rating.value, input.duration.value, input.state.value,
                       DayOffsetFirst);
  }

  lemma RestoringObserves<W>(c: Context<W>, s: Features<W>, row: PreparedRow, ids: Ids, features: seq<real>)
    requires s.Valid() && RowHasIds(row, ids)
    requires FeatureVector(c, s, row, false) == (s.(rng := FillEncodings(c, s, ids, 4).rng), Ok(features))
    ensures PredictFeatureVector(c, s, row) == (s, Ok(features))
  {
    NoRestoreNeeded(s, row, ids, 0);
    if NeedsRngRestore(s, row, 0) == Ok(false) {
      NothingToFill(c, s, ids, 4);
    }
  }

  /** Predicting leaves the whole state, generator included, as it was. */
  lemma PredictionObserves<W>(c: Context<W>, s: Features<W>, input: ReviewInput<real>)
    requires c.scale.Sane() && s.Valid()
    ensures PredictFeatureVector(c, s, PreparePredictRow(c, s, input)) == (s, Ok(QueryFeatures(c, s, input)))
  {
    var row, ids := PreparePredictRow(c, s, input), NormalizedReviewIds(input);
    assert RowHasIds(row, ids) by {
      PreparedRowsHaveIds(c, s, input);
    }
    var t := FillEncodings(c, s, ids, 4);
    assert CardFeatures(c, row, |CARD_FEATURE_COLUMNS|) == Ok(QueryCardFeatures(c, s, input)) by {
      PredictRowCards(c, s, input);
    }
    assert EncodeRow(c, s, row, 4, false) == (s.(rng := t.rng), Ok(IdValues(t, ids, 4))) by {
      ObservingDrawsTheSame(c, s, row, ids, 4);
    }
    assert DayFeatures(c, row) == Ok(DayValues(c, s, input)) by {
      PredictRowDays(c, s, input);
    }
    FeatureVectorParts(c, s, row, false, QueryCardFeatures(c, s, input), s.(rng := t.rng), IdValues(t, ids, 4),
                       DayValues(c, s, input));
    RestoringObserves(c, s, row, ids, QueryFeatures(c, s, input));
  }

  // ----- The fused step is the reference step -----

  lemma ProcessVector<W>(c: Context<W>, s: Features<W>, input: ReviewInput<real>, row: PreparedRow)
    requires s.Valid() && input.Complete() && RowHasIds(row, NormalizedReviewIds(input))
    requires CardFeatures(c, row, |CARD_FEATURE_COLUMNS|) == Ok(ProcessCardFeatures(c, s, input))
    requires DayFeatures(c, row) == Ok(DayValues(c, s, input))
    ensures FeatureVector(c, s, row, true)
        == (FillEncodings(c, s, NormalizedReviewIds(input), 4), Ok(ProcessFeatures(c, s, input)))
  {
    var ids := NormalizedReviewIds(input);
    var t := FillEncodings(c, s, ids, 4);
    StoringFills(c, s, row, ids, 4);
    FeatureVectorParts(c, s, row, true, ProcessCardFeatures(c, s, input), t, IdValues(t, ids, 4),
                       DayValues(c, s, input));
  }

  lemma ProcessingFills<W>(c: Context<W>, s: Features<W>, input: ReviewInput<real>)
    requires c.scale.Sane() && s.Valid() && input.Complete()
    ensures FeatureVector(c, s, PrepareProcessRow(c, s, input).value, true)
         == (FillEncodings(c, s, NormalizedReviewIds(input), 4), Ok(ProcessFeatures(c, s, input)))
  {
    ProcessRowCards(c, s, input);
    PreparedRowsHaveIds(c, s, input);
    ProcessRowDays(c, s, input);
    ProcessVector(c, s, input, PrepareProcessRow(c, s, input).value);
  }

  lemma RecordingIds<W>(c: Context<W>, s: Features<W>, t: Features<W>, input: ReviewInput<real>)
    requires input.Complete()
    ensures RecordRecurrentRow(t, PrepareProcessRow(c, s, input).value) == Ok(RecordIds(t, NormalizedReviewIds(input)))
  {
    PreparedRowsHaveIds(c, s, input);
    var row, ids := PrepareProcessRow(c, s, input).value, NormalizedReviewIds(input);
    assert GetI64(row, ID_SUBMODULES[0].0) == Ok(IdOf(ids, 0));
    assert GetI64(row, ID_SUBMODULES[1].0) == Ok(IdOf(ids, 1));
    assert GetI64(row, ID_SUBMODULES[2].0) == Ok(IdOf(ids, 2));
    assert GetI64(row, ID_SUBMODULES[3].0) == Ok(IdOf(ids, 3));
  }

  lemma RecordingValues<W>(c: Context<W>, s: Features<W>, t: Features<W>, input: ReviewInput<real>)
    requires input.Complete()
    ensures RecordProcessedRow(t, PrepareProcessRow(c, s, input).value)
         == Ok(RecordValues(t, input.cardId, input.elapsedDays, input.elapsedSeconds, RelativeDay(s, input)))
  {
    var base := AddSame(c, s, input);
    AddSameTimes(c, s, input);
    AddSameIds(c, s, input, 0);
    ProcessKeepsColumn(c, base, input.rating.value, input.duration.value, input.state.value, CardId);
    ProcessKeepsColumn(c, base, input.rating.value, input.duration.value, input.state.value, DayOffset);
    ProcessKeepsColumn(c, base, input.rating.value, input.duration.value, input.state.value, ElapsedDays);
    ProcessKeepsColumn(c, base, input.rating.value, input.duration.value, input.state.value, ElapsedSeconds);
  }

  /** The prepared-row path, on any valid state, gives the fused rows and the processed state. */
  lemma ReferenceStepIs<W>(c: Context<W>, s: Features<W>, input: ReviewInput<real>)
    requires c.scale.Sane() && s.Valid() && input.Complete()
    ensures ReferenceStep(c, s, input)
        == (Processed(c, s, input), Ok((QueryFeatures(c, s, input), ProcessFeatures(c, s, input))))
  {
    var ids := NormalizedReviewIds(input);
    var t := FillEncodings(c, s, ids, 4);
    PredictionObserves(c, s, input);
    ProcessingFills(c, s, input);
    RecordingIds(c, s, t, input);
    RecordingValues(c, s, RecordIds(t, ids), input);
  }

  /** The fused answer that corresponds to a reference answer. */
  function FusedAnswer(row: Result<(seq<real>, seq<real>), FeatureError>, ids: Ids, includeQuery: bool)
    : Result<(Ids, seq<real>), FeatureError>
  {
    match row
    case Err(e) => Err(e)
    case Ok((query, process)) => Ok((ids, if includeQuery then query + process else process))
  }

  lemma DayValuesLength<W>(c: Context<W>, s: Features<W>, input: ReviewInput<real>)
    requires c.scale.Sane()
    ensures |DayValues(c, s, input)| == 28
  {
    var day := RelativeDay(s, input);
    assert |c.scale.Days(day, Lookup(s.firstDay, input.cardId, day))| == 28;
  }

  lemma DimensionedLength<W>(c: Context<W>, s: Features<W>, input: ReviewInput<real>)
    requires c.scale.Sane() && s.Valid() && s.Dimensioned()
    ensures |IdAndDayValues(c, s, input)| == 68
    ensures Processed(c, s, input).Dimensioned()
  {
    var ids := NormalizedReviewIds(input);
    FillKeepsDimensions(c, s, ids, 4);
    IdValuesLength(FillEncodings(c, s, ids, 4), ids);
    DayValuesLength(c, s, input);
  }

  lemma FusedStepIs<W>(c: Context<W>, s: Features<W>, input: ReviewInput<real>, includeQuery: bool)
    requires s.Valid() && input.Complete()
    ensures var (t, row) := FusedStep(c, s, input, includeQuery);
      if |IdAndDayValues(c, s, input)| == 68
      then t == Processed(c, s, input)
        && row == FusedAnswer(Ok((QueryFeatures(c, s, input), ProcessFeatures(c, s, input))),
                              NormalizedReviewIds(input), includeQuery)
      else row.Err?
  {
    var process := ProcessFeatures(c, s, input);
    assert [] + process == process;
  }

  /**
   A complete review: the two paths agree on the state and on the rows exactly when the
   encodings of the review have the 92-value row's length, as they do on every run.
   */
  lemma CompleteStepsAgree<W>(c: Context<W>, s: Features<W>, input: ReviewInput<real>, includeQuery: bool)
    requires c.scale.Sane() && s.Valid() && input.Complete()
    ensures ReferenceStep(c, s, input).1.Ok?
    ensures FusedStep(c, s, input, includeQuery)
         == (ReferenceStep(c, s, input).0,
             FusedAnswer(ReferenceStep(c, s, input).1, NormalizedReviewIds(input), includeQuery))
       <==> |IdAndDayValues(c, s, input)| == 68
    ensures s.Dimensioned() ==> |IdAndDayValues(c, s, input)| == 68 && ReferenceStep(c, s, input).0.Dimensioned()
  {
    ReferenceStepIs(c, s, input);
    FusedStepIs(c, s, input, includeQuery);
    if s.Dimensioned() {
      DimensionedLength(c, s, input);
    }
  }

  /** An incomplete review is refused by both paths with the same error and no change. */
  lemma IncompleteStepsAgree<W>(c: Context<W>, s: Features<W>, input: ReviewInput<real>, includeQuery: bool)
    requires c.scale.Sane() && s.Valid() && !input.Complete()
    ensures ReferenceStep(c, s, input).0 == s && ReferenceStep(c, s, input).1.Err?
    ensures FusedStep(c, s, input, includeQuery)
         == (s, FusedAnswer(ReferenceStep(c, s, input).1, NormalizedReviewIds(input), includeQuery))
  {
    PredictionObserves(c, s, input);
  }

  /** Every review, on every state with well-dimensioned encodings. */
  lemma StepsAgree<W>(c: Context<W>, s: Features<W>, input: ReviewInput<real>, includeQuery: bool)
    requires c.scale.Sane() && s.Valid() && s.Dimensioned()
    ensures var (t, row) := ReferenceStep(c, s, input);
      t.Dimensioned()
          && FusedStep(c, s, input, includeQuery) == (t, FusedAnswer(row, NormalizedReviewIds(input), includeQuery))
  {
    if input.Complete() {
      CompleteStepsAgree(c, s, input, includeQuery);
    } else {
      IncompleteStepsAgree(c, s, input, includeQuery);
    }
  }

  // ----- Direct prediction -----

  lemma CanBatchPredictIs<W>(c: Context<W>, s: Features<W>, input: ReviewInput<real>)
    requires s.Valid()
    ensures CanBatchPredict(s, PreparePredictRow(c, s, input))
         == Ok(AllEncoded(s, NormalizedReviewIds(input)) && AllRecurrent(s, NormalizedReviewIds(input)))
  {
    var row, ids := PreparePredictRow(c, s, input), NormalizedReviewIds(input);
    PreparedRowsHaveIds(c, s, input);
    NoRestoreNeeded(s, row, ids, 0);
    assert GetI64(row, ID_SUBMODULES[0].0) == Ok(IdOf(ids, 0));
    assert GetI64(row, ID_SUBMODULES[1].0) == Ok(IdOf(ids, 1));
    assert GetI64(row, ID_SUBMODULES[2].0) == Ok(IdOf(ids, 2));
    assert GetI64(row, ID_SUBMODULES[3].0) == Ok(IdOf(ids, 3));
  }

  lemma EncodedValues<W>(c: Context<W>, s: Features<W>, input: ReviewInput<real>, k: nat)
    requires s.Valid() && AllEncoded(s, NormalizedReviewIds(input)) && k == 4
    ensures IdAndDayValues(c, s, input) == IdValues(s, NormalizedReviewIds(input), k) + DayValues(c, s, input)
  {
    NothingToFill(c, s, NormalizedReviewIds(input), k);
  }

  lemma QueryCardLength<W>(c: Context<W>, s: Features<W>, input: ReviewInput<real>)
    requires s.Valid()
    ensures |QueryCardFeatures(c, s, input)| == 24
  {
  }

  lemma EncodedQueryFeatures<W>(c: Context<W>, s: Features<W>, input: ReviewInput<real>, k: nat)
    requires c.scale.Sane() && s.Valid() && s.Dimensioned() && AllEncoded(s, NormalizedReviewIds(input)) && k == 4
    ensures QueryFeatures(c, s, input)
         == QueryCardFeatures(c, s, input) + IdValues(s, NormalizedReviewIds(input), k) + DayValues(c, s, input)
    ensures |QueryFeatures(c, s, input)| == 92
  {
    EncodedValues(c, s, input, k);
    DimensionedLength(c, s, input);
    QueryCardLength(c, s, input);
    ConcatAssociates(QueryCardFeatures(c, s, input), IdValues(s, NormalizedReviewIds(input), k),
                     DayValues(c, s, input));
  }

  lemma ConcatAssociates<T>(a: seq<T>, b: seq<T>, c: seq<T>)
    ensures a + b + c == a + (b + c)
  {
  }

  /** Direct prediction answers exactly when batching is allowed, and then with the prepared-row prediction. */
  lemma DirectPredictionAgrees<W>(c: Context<W>, s: Features<W>, input: ReviewInput<real>)
    requires c.scale.Sane() && s.Valid() && s.Dimensioned()
    ensures var batch := CanBatchPredict(s, PreparePredictRow(c, s, input));
      batch.Ok? && DirectPredict(c, s, input).Ok? && (DirectPredict(c, s, input).value.Some? <==> batch.value)
    ensures var direct := DirectPredict(c, s, input).value;
      direct.Some? ==>
        && direct.value.1 == NormalizedReviewIds(input)
        && PredictFeatureVector(c, s, PreparePredictRow(c, s, input)) == (s, Ok(direct.value.0))
  {
    var ids := NormalizedReviewIds(input);
    CanBatchPredictIs(c, s, input);
    if AllEncoded(s, ids) {
      EncodedQueryFeatures(c, s, input, 4);
      PredictionObserves(c, s, input);
    }
  }

  // ----- Whole histories -----

  function RunReference<W>(c: Context<W>, s: Features<W>, inputs: seq<ReviewInput<real>>)
    : (r: (Features<W>, seq<Result<(seq<real>, seq<real>), FeatureError>>))
    requires s.Valid()
    ensures r.0.Valid() && |r.1| == |inputs|
  {
    if inputs == [] then (s, [])
    else
      var (t, rows) := RunReference(c, s, inputs[..|inputs| - 1]);
      var (u, row) := ReferenceStep(c, t, inputs[|inputs| - 1]);
      (u, rows + [row])
  }

  function RunFused<W>(c: Context<W>, s: Features<W>, inputs: seq<ReviewInput<real>>, includeQuery: bool)
    : (r: (Features<W>, seq<Result<(Ids, seq<real>), FeatureError>>))
    requires s.Valid()
    ensures r.0.Valid() && |r.1| == |inputs|
  {
    if inputs == [] then (s, [])
    else
      var (t, rows) := RunFused(c, s, inputs[..|inputs| - 1], includeQuery);
      var (u, row) := FusedStep(c, t, inputs[|inputs| - 1], includeQuery);
      (u, rows + [row])
  }

  /** For every history the fused paths end in the reference state. */
  lemma {:induction false} HistoriesAgree<W>(c: Context<W>, s: Features<W>, inputs: seq<ReviewInput<real>>,
                                             includeQuery: bool)
    requires c.scale.Sane() && s.Valid() && s.Dimensioned()
    ensures RunFused(c, s, inputs, includeQuery).0 == RunReference(c, s, inputs).0
    ensures RunReference(c, s, inputs).0.Dimensioned()
  {
    if inputs != [] {
      var front, last := inputs[..|inputs| - 1], inputs[|inputs| - 1];
      HistoriesAgree(c, s, front, includeQuery);
      StepsAgree(c, RunReference(c, s, front).0, last, includeQuery);
    }
  }

  lemma FusedRow<W>(c: Context<W>, s: Features<W>, inputs: seq<ReviewInput<real>>, includeQuery: bool, k: nat)
    requires s.Valid() && k < |inputs|
    ensures var front := RunFused(c, s, inputs[..|inputs| - 1], includeQuery);
      RunFused(c, s, inputs, includeQuery).1[k] == if k < |inputs| - 1 then front.1[k]
          else FusedStep(c, front.0, inputs[k], includeQuery).1
  {
  }

  lemma ReferenceRow<W>(c: Context<W>, s: Features<W>, inputs: seq<ReviewInput<real>>, k: nat)
    requires s.Valid() && k < |inputs|
    ensures var front := RunReference(c, s, inputs[..|inputs| - 1]);
      RunReference(c, s, inputs).1[k] == if k < |inputs| - 1 then front.1[k] else ReferenceStep(c, front.0, inputs[k]).1
  {
  }

  /** For every history the fused paths answer each review with the reference rows. */
  lemma {:induction false} HistoryAnswersAgree<W>(c: Context<W>, s: Features<W>, inputs: seq<ReviewInput<real>>,
                                                  includeQuery: bool, k: nat)
    requires c.scale.Sane() && s.Valid() && s.Dimensioned() && k < |inputs|
    ensures RunFused(c, s, inputs, includeQuery).1[k]
         == FusedAnswer(RunReference(c, s, inputs).1[k], NormalizedReviewIds(inputs[k]), includeQuery)
  {
    var front := inputs[..|inputs| - 1];
    FusedRow(c, s, inputs, includeQuery, k);
    ReferenceRow(c, s, inputs, k);
    if k < |front| {
      HistoryAnswersAgree(c, s, front, includeQuery, k);
    } else {
      HistoriesAgree(c, s, front, includeQuery);
      StepsAgree(c, RunReference(c, s, front).0, inputs[k], includeQuery);
    }
  }
}
