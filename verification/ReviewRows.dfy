/** Review inputs and string-keyed prepared rows. Row keys are an enumeration of the program's field names. */
module ReviewRows {
  import opened Wrappers

  datatype MaybeId = Present(id: int) | Missing

  /** `F` is the type of the 64-bit floating-point fields. */
  datatype ReviewInput<+F> = ReviewInput(
    reviewId: int, cardId: int, noteId: MaybeId, deckId: MaybeId, presetId: MaybeId,
    dayOffset: F, elapsedDays: F, elapsedSeconds: F,
    rating: Option<int>, duration: Option<F>, state: Option<F>)
  {
    /** The fields that processing needs beyond those of a prediction. */
    predicate Complete() {
      rating.Some? && duration.Some? && state.Some?
    }
  }

  datatype Ids = Ids(card: int, note: int, deck: int, preset: int)

  const ID_PLACEHOLDER: int := 314_159_265_358_979_323

  /** The id, or the placeholder (offset by the card for a note), and the flag for a missing id. */
  function NormalizeId(value: MaybeId, noteCardId: Option<int>): (int, real) {
    match value
    case Present(id) => (id, 0.0)
    case Missing => (ID_PLACEHOLDER + noteCardId.GetOr(0), 1.0)
  }

  function NormalizedReviewIds<F>(input: ReviewInput<F>): Ids {
    Ids(input.cardId,
        NormalizeId(input.noteId, Some(input.cardId)).0,
        NormalizeId(input.deckId, None).0,
        NormalizeId(input.presetId, None).0)
  }

  datatype Column =
    | ReviewId | CardId | NoteId | DeckId | PresetId
    | DayOffset | DayOffsetFirst | ElapsedDays | ElapsedDaysCumulative | ElapsedSeconds | ElapsedSecondsCumulative
    | ScaledElapsedDays | ScaledElapsedDaysCumulative | ScaledElapsedSeconds | ScaledElapsedSecondsCumulative
    | ElapsedSecondsSin | ElapsedSecondsCos | ElapsedSecondsCumulativeSin | ElapsedSecondsCumulativeCos
    | NoteIdIsNan | DeckIdIsNan | PresetIdIsNan
    | DayOffsetDiff | DayOfWeek | DiffNewCards | DiffReviews | CumNewCardsToday | CumReviewsToday
    | ScaledDuration | ScaledState | Rating(value: int) | IsQuery | Skip

  const CARD_FEATURE_COLUMNS: seq<Column> := [
    ScaledElapsedDays, ScaledElapsedDaysCumulative, ScaledElapsedSeconds, ElapsedSecondsSin, ElapsedSecondsCos,
    ScaledElapsedSecondsCumulative, ElapsedSecondsCumulativeSin, ElapsedSecondsCumulativeCos, ScaledDuration,
    Rating(1), Rating(2), Rating(3), Rating(4), NoteIdIsNan, DeckIdIsNan, PresetIdIsNan, DayOffsetDiff, DayOfWeek,
    DiffNewCards, DiffReviews, CumNewCardsToday, CumReviewsToday, ScaledState, IsQuery]

  /** The identity submodules in encoding order, with their dimensions. */
  const ID_SUBMODULES: seq<(Column, nat)> := [(CardId, 12), (NoteId, 12), (DeckId, 8), (PresetId, 8)]

  datatype RowValue = Bool(b: bool) | Float(f: real) | Int(i: int)

  type PreparedRow = map<Column, RowValue>

  datatype FeatureError =
    | MissingField(column: Column) | NotNumeric(column: Column) | NotInteger(column: Column)
    | MissingRating | MissingDuration | MissingState | WrongFeatureCount(count: nat)
    | MissingEncoding(column: Column, id: int)

  function GetF64(row: PreparedRow, column: Column): Result<real, FeatureError> {
    if column !in row then Err(MissingField(column))
    else match row[column]
      case Float(value) => Ok(value)
      case Int(value) => Ok(value as real)
      case Bool(_) => Err(NotNumeric(column))
  }

  function GetI64(row: PreparedRow, column: Column): Result<int, FeatureError> {
    if column !in row then Err(MissingField(column))
    else match row[column]
      case Int(value) => Ok(value)
      case Float(value) => if value.Floor as real == value then Ok(value.Floor) else Err(NotInteger(column))
      case Bool(_) => Err(NotInteger(column))
  }

  function IdOf(ids: Ids, k: nat): int
    requires k < 4
  {
    if k == 0 then ids.card else if k == 1 then ids.note else if k == 2 then ids.deck else ids.preset
  }
}
