/**
 What the feature code computes, on values: the prepared-row path, the fused path, and the proof
 that on every history they give the same rows and the same state.
 */
module FeatureSpec {
  import opened Wrappers
  import opened ReviewRows
  import opened BlockGenerator

  /** The scaling and trigonometric functions and the narrowing to 32-bit floats, left uninterpreted. */
  datatype Scaling = Scaling(
    elapsedDays: real -> real, elapsedDaysCumulative: real -> real,
    elapsedSeconds: real -> real, elapsedSecondsCumulative: real -> real,
    secondsSin: real -> real, secondsCos: real -> real,
    duration: real -> real, state: real -> real,
    dayOffsetDiff: real -> real, dayOfWeek: real -> real,
    diffNewCards: real -> real, diffReviews: real -> real,
    newCardsToday: real -> real, reviewsToday: real -> real,
    dayEncoding: (real, real) -> seq<real>,
    toF32: real -> real)
  {
    /** Narrowing is exact on 0 and 1, and a day encoding has four values for each of seven periods. */
    ghost predicate Sane() {
      toF32(0.0) == 0.0 && toF32(1.0) == 1.0 && forall d, f :: |Days(d, f)| == 28
    }

    function Days(dayOffset: real, dayOffsetFirst: real): seq<real> {
      dayEncoding(dayOffset, dayOffsetFirst)
    }
  }

  datatype Context<!W> = Context(engine: Engine<W>, scale: Scaling)

  datatype StateKeys = StateKeys(cards: set<int>, notes: set<int>, decks: set<int>, presets: set<int>, global: bool)

  type IdEncodings = map<Column, map<int, seq<real>>>

  datatype Features<W> = Features(
    firstDayOffset: Option<real>, prevDayOffset: Option<real>,
    cardSet: set<int>, cardCount: int, lastNewCards: map<int, int>,
    i: int, lastI: map<int, int>,
    today: real, todayReviews: int, todayNewCards: int,
    firstDay: map<int, real>, daysSum: map<int, real>, secondsSum: map<int, real>,
    encodings: IdEncodings, keys: StateKeys, rng: Generator<W>)
  {
    /** An encoding map for every submodule, and a usable generator. */
    ghost predicate Valid() {
      && (forall k :: 0 <= k < 4 ==> ID_SUBMODULES[k].0 in encodings)
      && rng.Sized() && rng.CursorSafe()
    }

    /** Every stored encoding has its submodule's dimension. */
    ghost predicate Dimensioned()
      requires Valid()
    {
      forall k, id :: 0 <= k < 4 && id in encodings[ID_SUBMODULES[k].0] ==>
        |encodings[ID_SUBMODULES[k].0][id]| == ID_SUBMODULES[k].1
    }
  }

  function WithTorchSeed<W>(c: Context<W>, seed: u64): (s: Features<W>)
    ensures s.Valid() && s.Dimensioned()
  {
    Features(None, None, {}, 0, map[], 0, map[], -1.0, 0, 0, map[], map[], map[],
             map[CardId := map[], NoteId := map[], DeckId := map[], PresetId := map[]],
             StateKeys({}, {}, {}, {}, false), Seeded(c.engine, seed))
  }

  // ----- Values of a row read off the state -----

  function Lookup<V>(m: map<int, V>, key: int, default: V): V {
    if key in m then m[key] else default
  }

  function Max0(x: int): int {
    if x < 0 then 0 else x
  }

  function RelativeDay<W>(s: Features<W>, input: ReviewInput<real>): real {
    match s.firstDayOffset
    case Some(first) => input.dayOffset - first
    case None => 0.0
  }

  function UnscaledDiffNewCards<W>(s: Features<W>, card: int): int {
    if card in s.lastNewCards then Max0(s.cardCount - s.lastNewCards[card]) else 0
  }

  function UnscaledDiffReviews<W>(s: Features<W>, card: int): int {
    if card in s.lastI then Max0(s.i - s.lastI[card] - 1) else 0
  }

  function RowTodayReviews<W>(s: Features<W>, day: real): int {
    (if day != s.today then -1 else s.todayReviews) + 1
  }

  function RowTodayNewCards<W>(s: Features<W>, day: real, card: int): int {
    (if day != s.today then 0 else s.todayNewCards) + (if card in s.cardSet then 0 else 1)
  }

  // ----- The prepared-row path -----

  function WithIds(row: PreparedRow, input: ReviewInput<real>): PreparedRow {
    var (note, noteMissing) := NormalizeId(input.noteId, Some(input.cardId));
    var (deck, deckMissing) := NormalizeId(input.deckId, None);
    var (preset, presetMissing) := NormalizeId(input.presetId, None);
    row[ReviewId := Int(input.reviewId)][CardId := Int(input.cardId)]
       [NoteId := Int(note)][DeckId := Int(deck)][PresetId := Int(preset)]
       [NoteIdIsNan := Float(noteMissing)][DeckIdIsNan := Float(deckMissing)][PresetIdIsNan := Float(presetMissing)]
  }

  function WithElapsed<W>(row: PreparedRow, c: Context<W>, s: Features<W>, input: ReviewInput<real>): PreparedRow {
    var days := Lookup(s.daysSum, input.cardId, 0.0) + input.elapsedDays;
    var seconds := Lookup(s.secondsSum, input.cardId, 0.0) + input.elapsedSeconds;
    row[ElapsedDays := Float(input.elapsedDays)]
       [ElapsedDaysCumulative := Float(days)]
       [ScaledElapsedDaysCumulative := Float(c.scale.elapsedDaysCumulative(days))]
       [ElapsedSeconds := Float(input.elapsedSeconds)]
       [ScaledElapsedSeconds := Float(c.scale.elapsedSeconds(input.elapsedSeconds))]
       [ScaledElapsedDays := Float(c.scale.elapsedDays(input.elapsedDays))]
       [ElapsedSecondsCumulative := Float(seconds)]
       [ScaledElapsedSecondsCumulative := Float(c.scale.elapsedSecondsCumulative(seconds))]
       [ElapsedSecondsSin := Float(c.scale.secondsSin(input.elapsedSeconds))]
       [ElapsedSecondsCos := Float(c.scale.secondsCos(input.elapsedSeconds))]
       [ElapsedSecondsCumulativeSin := Float(c.scale.secondsSin(seconds))]
       [ElapsedSecondsCumulativeCos := Float(c.scale.secondsCos(seconds))]
  }

  function WithDayAndCounters<W>(row: PreparedRow, c: Context<W>, s: Features<W>,
                                 input: ReviewInput<real>): PreparedRow {
    var card, day := input.cardId, RelativeDay(s, input);
    row[DayOffset := Float(day)]
       [DayOffsetFirst := Float(Lookup(s.firstDay, card, day))]
       [DayOffsetDiff := Float(c.scale.dayOffsetDiff(day - s.prevDayOffset.GetOr(0.0)))]
       [DayOfWeek := Float(c.scale.dayOfWeek(day))]
       [DiffNewCards := Float(c.scale.diffNewCards(UnscaledDiffNewCards(s, card) as real))]
       [DiffReviews := Float(c.scale.diffReviews(UnscaledDiffReviews(s, card) as real))]
       [CumNewCardsToday := Float(c.scale.newCardsToday(RowTodayNewCards(s, day, card) as real))]
       [CumReviewsToday := Float(c.scale.reviewsToday(RowTodayReviews(s, day) as real))]
  }

  /** The columns that prediction and processing rows share. */
  function AddSame<W>(c: Context<W>, s: Features<W>, input: ReviewInput<real>): PreparedRow {
    WithDayAndCounters(WithElapsed(WithIds(map[], input), c, s, input), c, s, input)
  }

  function WithPredictFields(row: PreparedRow): PreparedRow {
    row[IsQuery := Float(1.0)][Skip := Bool(true)][ScaledDuration := Float(0.0)][ScaledState := Float(0.0)]
       [Rating(1) := Float(0.0)][Rating(2) := Float(0.0)][Rating(3) := Float(0.0)][Rating(4) := Float(0.0)]
  }

  function PreparePredictRow<W>(c: Context<W>, s: Features<W>, input: ReviewInput<real>): PreparedRow {
    WithPredictFields(AddSame(c, s, input))
  }

  function OneHot(rating: int, index: int): real {
    if rating == index then 1.0 else 0.0
  }

  function WithProcessFields<W>(c: Context<W>, row: PreparedRow, rating: int, duration: real,
                                state: real): PreparedRow {
    row[IsQuery := Float(0.0)][Skip := Bool(false)]
       [ScaledDuration := Float(c.scale.duration(duration))][ScaledState := Float(c.scale.state(state))]
       [Rating(1) := Float(OneHot(rating, 1))][Rating(2) := Float(OneHot(rating, 2))]
       [Rating(3) := Float(OneHot(rating, 3))][Rating(4) := Float(OneHot(rating, 4))]
  }

  function PrepareProcessRow<W>(c: Context<W>, s: Features<W>,
                                input: ReviewInput<real>): Result<PreparedRow, FeatureError> {
    if input.rating.None? then Err(MissingRating)
    else if input.duration.None? then Err(MissingDuration)
    else if input.state.None? then Err(MissingState)
    else Ok(WithProcessFields(c, AddSame(c, s, input), input.rating.value, input.duration.value, input.state.value))
  }

  /** The first `k` card feature columns, narrowed; the first unusable column is the error. */
  function CardFeatures<W>(c: Context<W>, row: PreparedRow, k: nat): (r: Result<seq<real>, FeatureError>)
    requires k <= |CARD_FEATURE_COLUMNS|
    ensures r.Ok? ==> |r.value| == k
  {
    if k == 0 then Ok([])
    else match CardFeatures(c, row, k - 1)
      case Err(e) => Err(e)
      case Ok(values) =>
        match GetF64(row, CARD_FEATURE_COLUMNS[k - 1])
        case Err(e) => Err(e)
        case Ok(value) => Ok(values + [c.scale.toF32(value)])
  }

  /** The encodings of the first `k` submodules: stored, or drawn (and stored when `mutate`). */
  function EncodeRow<W>(c: Context<W>, s: Features<W>, row: PreparedRow, k: nat, mutate: bool)
    : (r: (Features<W>, Result<seq<real>, FeatureError>))
    requires s.Valid() && k <= 4
    ensures r.0.Valid()
  {
    if k == 0 then (s, Ok([]))
    else
      var (t, before) := EncodeRow(c, s, row, k - 1, mutate);
      match before
      case Err(_) => (t, before)
      case Ok(values) =>
        var (column, dim) := ID_SUBMODULES[k - 1];
        match GetI64(row, column)
        case Err(e) => (t, Err(e))
        case Ok(id) =>
          if id in t.encodings[column] then (t, Ok(values + t.encodings[column][id]))
          else
            var (rng, encoding) := EncodeFrom(c.engine, t.rng, dim);
            (if mutate then t.(rng := rng, encodings := Insert(t.encodings, column, id, encoding)) else t.(rng := rng),
             Ok(values + encoding))
  }

  function Insert(encodings: IdEncodings, column: Column, id: int, encoding: seq<real>): IdEncodings
    requires column in encodings
  {
    encodings[column := encodings[column][id := encoding]]
  }

  function DayFeatures<W>(c: Context<W>, row: PreparedRow): Result<seq<real>, FeatureError> {
    match GetF64(row, DayOffset)
    case Err(e) => Err(e)
    case Ok(day) =>
      match GetF64(row, DayOffsetFirst)
      case Err(e) => Err(e)
      case Ok(first) => Ok(c.scale.Days(day, first))
  }

  function FeatureVector<W>(c: Context<W>, s: Features<W>, row: PreparedRow, mutate: bool)
    : (r: (Features<W>, Result<seq<real>, FeatureError>))
    requires s.Valid()
    ensures r.0.Valid()
  {
    match CardFeatures(c, row, |CARD_FEATURE_COLUMNS|)
    case Err(e) => (s, Err(e))
    case Ok(cards) =>
      var (t, encoded) := EncodeRow(c, s, row, 4, mutate);
      match encoded
      case Err(e) => (t, Err(e))
      case Ok(values) =>
        match DayFeatures(c, row)
        case Err(e) => (t, Err(e))
        case Ok(days) => (t, Ok(cards + values + days))
  }

  /** Whether one of the submodules from `k` on has no stored encoding for the row's id. */
  function NeedsRngRestore<W>(s: Features<W>, row: PreparedRow, k: nat): Result<bool, FeatureError>
    requires s.Valid() && k <= 4
    decreases 4 - k
  {
    if k == 4 then Ok(false)
    else match GetI64(row, ID_SUBMODULES[k].0)
      case Err(e) => Err(e)
      case Ok(id) => if id !in s.encodings[ID_SUBMODULES[k].0] then Ok(true) else NeedsRngRestore(s, row, k + 1)
  }

  function PredictFeatureVector<W>(c: Context<W>, s: Features<W>, row: PreparedRow)
    : (r: (Features<W>, Result<seq<real>, FeatureError>))
    requires s.Valid()
    ensures r.0.Valid()
  {
    match NeedsRngRestore(s, row, 0)
    case Err(e) => (s, Err(e))
    case Ok(restore) =>
      var (t, result) := FeatureVector(c, s, row, false);
      (if restore then t.(rng := s.rng) else t, result)
  }

  function RecordIds<W>(s: Features<W>, ids: Ids): Features<W> {
    s.(keys := StateKeys(s.keys.cards + {ids.card}, s.keys.notes + {ids.note}, s.keys.decks + {ids.deck},
                         s.keys.presets + {ids.preset}, true))
  }

  function RecordValues<W>(s: Features<W>, card: int, elapsedDays: real, elapsedSeconds: real, day: real): Features<W> {
    var first := s.firstDayOffset.GetOr(day);
    var isNew := card !in s.cardSet;
    var count := if isNew then s.cardCount + 1 else s.cardCount;
    s.(daysSum := s.daysSum[card := Lookup(s.daysSum, card, 0.0) + elapsedDays],
       secondsSum := s.secondsSum[card := Lookup(s.secondsSum, card, 0.0) + elapsedSeconds],
       firstDayOffset := Some(first),
       today := day,
       todayReviews := RowTodayReviews(s, day),
       todayNewCards := RowTodayNewCards(s, day, card),
       cardSet := s.cardSet + {card},
       cardCount := count,
       firstDay := if isNew then s.firstDay[card := day - first] else s.firstDay,
       prevDayOffset := Some(day),
       lastI := s.lastI[card := s.i],
       lastNewCards := s.lastNewCards[card := count],
       i := s.i + 1)
  }

  // The four steps in which the program updates its fields.

  function AddElapsed<W>(s: Features<W>, card: int, elapsedDays: real, elapsedSeconds: real): Features<W> {
    s.(daysSum := s.daysSum[card := Lookup(s.daysSum, card, 0.0) + elapsedDays],
       secondsSum := s.secondsSum[card := Lookup(s.secondsSum, card, 0.0) + elapsedSeconds])
  }

  function TurnDay<W>(s: Features<W>, day: real): Features<W> {
    s.(firstDayOffset := Some(s.firstDayOffset.GetOr(day)), today := day,
       todayReviews := RowTodayReviews(s, day), todayNewCards := if day != s.today then 0 else s.todayNewCards)
  }

  function CountNewCard<W>(s: Features<W>, card: int, day: real): Features<W> {
    if card in s.cardSet then s
    else s.(todayNewCards := s.todayNewCards + 1, cardSet := s.cardSet + {card}, cardCount := s.cardCount + 1,
            firstDay := s.firstDay[card := day - s.firstDayOffset.GetOr(day)])
  }

  function MarkLast<W>(s: Features<W>, card: int, day: real): Features<W> {
    s.(prevDayOffset := Some(day), lastI := s.lastI[card := s.i], lastNewCards := s.lastNewCards[card := s.cardCount],
       i := s.i + 1)
  }

  lemma RecordInSteps<W>(s: Features<W>, card: int, elapsedDays: real, elapsedSeconds: real, day: real)
    ensures RecordValues(s, card, elapsedDays, elapsedSeconds, day)
         == MarkLast(CountNewCard(TurnDay(AddElapsed(s, card, elapsedDays, elapsedSeconds), day), card, day), card, day)
  {
    if card in s.cardSet {
      assert s.cardSet + {card} == s.cardSet;
    }
  }

  function RecordRecurrentRow<W>(s: Features<W>, row: PreparedRow): Result<Features<W>, FeatureError> {
    match (GetI64(row, CardId), GetI64(row, NoteId), GetI64(row, DeckId), GetI64(row, PresetId))
    case (Err(e), _, _, _) => Err(e)
    case (_, Err(e), _, _) => Err(e)
    case (_, _, Err(e), _) => Err(e)
    case (_, _, _, Err(e)) => Err(e)
    case (Ok(card), Ok(note), Ok(deck), Ok(preset)) => Ok(RecordIds(s, Ids(card, note, deck, preset)))
  }

  function RecordProcessedRow<W>(s: Features<W>, row: PreparedRow): Result<Features<W>, FeatureError> {
    match (GetI64(row, CardId), GetF64(row, ElapsedDays), GetF64(row, ElapsedSeconds), GetF64(row, DayOffset))
    case (Err(e), _, _, _) => Err(e)
    case (_, Err(e), _, _) => Err(e)
    case (_, _, Err(e), _) => Err(e)
    case (_, _, _, Err(e)) => Err(e)
    case (Ok(card), Ok(days), Ok(seconds), Ok(day)) => Ok(RecordValues(s, card, days, seconds, day))
  }

  /** The processing half of a review on the prepared-row path: the process row, the keys, the counters. */
  function ReferenceProcess<W>(c: Context<W>, s: Features<W>, row: PreparedRow)
    : (r: (Features<W>, Result<seq<real>, FeatureError>))
    requires s.Valid()
    ensures r.0.Valid()
  {
    var (s2, processed) := FeatureVector(c, s, row, true);
    if processed.Err? then (s2, processed)
    else
      match RecordRecurrentRow(s2, row)
      case Err(e) => (s2, Err(e))
      case Ok(s3) =>
        match RecordProcessedRow(s3, row)
        case Err(e) => (s3, Err(e))
        case Ok(s4) => (s4, processed)
  }

  /** One review on the prepared-row path: predict, then process. */
  function ReferenceStep<W>(c: Context<W>, s: Features<W>, input: ReviewInput<real>)
    : (r: (Features<W>, Result<(seq<real>, seq<real>), FeatureError>))
    requires s.Valid()
    ensures r.0.Valid()
  {
    var (s1, query) := PredictFeatureVector(c, s, PreparePredictRow(c, s, input));
    if query.Err? then (s1, Err(query.error))
    else
      match PrepareProcessRow(c, s1, input)
      case Err(e) => (s1, Err(e))
      case Ok(row) =>
        var (s2, process) := ReferenceProcess(c, s1, row);
        (s2, if process.Err? then Err(process.error) else Ok((query.value, process.value)))
  }

  // ----- The fused path -----

  /** Draws and stores the encoding of submodule `k` when it is missing. */
  function FillOne<W>(c: Context<W>, s: Features<W>, ids: Ids, k: nat): (t: Features<W>)
    requires s.Valid() && k < 4
    ensures t.Valid() && t == s.(rng := t.rng, encodings := t.encodings)
    ensures IdOf(ids, k) in t.encodings[ID_SUBMODULES[k].0]
    ensures forall j :: 0 <= j < 4 && j != k ==> t.encodings[ID_SUBMODULES[j].0] == s.encodings[ID_SUBMODULES[j].0]
  {
    var (column, dim) := ID_SUBMODULES[k];
    var id := IdOf(ids, k);
    if id in s.encodings[column] then s
    else
      var (rng, encoding) := EncodeFrom(c.engine, s.rng, dim);
      s.(rng := rng, encodings := Insert(s.encodings, column, id, encoding))
  }

  /** Draws and stores the encodings that the first `k` submodules miss. */
  function FillEncodings<W>(c: Context<W>, s: Features<W>, ids: Ids, k: nat): (t: Features<W>)
    requires s.Valid() && k <= 4
    ensures t.Valid()
    ensures t == s.(rng := t.rng, encodings := t.encodings)
    ensures forall j :: 0 <= j < k ==> IdOf(ids, j) in t.encodings[ID_SUBMODULES[j].0]
    ensures forall j :: k <= j < 4 ==> t.encodings[ID_SUBMODULES[j].0] == s.encodings[ID_SUBMODULES[j].0]
  {
    if k == 0 then s else FillOne(c, FillEncodings(c, s, ids, k - 1), ids, k - 1)
  }

  /** The stored encodings of the first `k` submodules, in order. */
  function IdValues<W>(s: Features<W>, ids: Ids, k: nat): seq<real>
    requires s.Valid() && k <= 4
    requires forall j :: 0 <= j < k ==> IdOf(ids, j) in s.encodings[ID_SUBMODULES[j].0]
  {
    if k == 0 then [] else IdValues(s, ids, k - 1) + s.encodings[ID_SUBMODULES[k - 1].0][IdOf(ids, k - 1)]
  }

  /** The quantities behind the query values. */
  datatype CardInputs = CardInputs(
    elapsedDays: real, daysCumulative: real, elapsedSeconds: real, secondsCumulative: real,
    noteMissing: real, deckMissing: real, presetMissing: real, dayDiff: real, day: real,
    diffNewCards: int, diffReviews: int, newCards: int, reviews: int)

  function CardInputsOf<W>(s: Features<W>, input: ReviewInput<real>): CardInputs {
    var card, day := input.cardId, RelativeDay(s, input);
    CardInputs(
      input.elapsedDays, Lookup(s.daysSum, card, 0.0) + input.elapsedDays,
      input.elapsedSeconds, Lookup(s.secondsSum, card, 0.0) + input.elapsedSeconds,
      NormalizeId(input.noteId, Some(card)).1, NormalizeId(input.deckId, None).1, NormalizeId(input.presetId, None).1,
      day - s.prevDayOffset.GetOr(0.0), day,
      UnscaledDiffNewCards(s, card), UnscaledDiffReviews(s, card),
      RowTodayNewCards(s, day, card), RowTodayReviews(s, day))
  }

  /** The 24 query values, in column order. */
  function CardArray(scale: Scaling, q: CardInputs): (r: seq<real>)
    ensures |r| == 24
  {
    [scale.toF32(scale.elapsedDays(q.elapsedDays)),
     scale.toF32(scale.elapsedDaysCumulative(q.daysCumulative)),
     scale.toF32(scale.elapsedSeconds(q.elapsedSeconds)),
     scale.toF32(scale.secondsSin(q.elapsedSeconds)),
     scale.toF32(scale.secondsCos(q.elapsedSeconds)),
     scale.toF32(scale.elapsedSecondsCumulative(q.secondsCumulative)),
     scale.toF32(scale.secondsSin(q.secondsCumulative)),
     scale.toF32(scale.secondsCos(q.secondsCumulative)),
     0.0, 0.0, 0.0, 0.0, 0.0,
     scale.toF32(q.noteMissing), scale.toF32(q.deckMissing), scale.toF32(q.presetMissing),
     scale.toF32(scale.dayOffsetDiff(q.dayDiff)),
     scale.toF32(scale.dayOfWeek(q.day)),
     scale.toF32(scale.diffNewCards(q.diffNewCards as real)),
     scale.toF32(scale.diffReviews(q.diffReviews as real)),
     scale.toF32(scale.newCardsToday(q.newCards as real)),
     scale.toF32(scale.reviewsToday(q.reviews as real)),
     0.0, 1.0]
  }

  /** The query values that the fused and the direct path write without a row. */
  function QueryCardFeatures<W>(c: Context<W>, s: Features<W>, input: ReviewInput<real>): (r: seq<real>)
    ensures |r| == 24
  {
    CardArray(c.scale, CardInputsOf(s, input))
  }

  /** Duration, rating, state and query flag overwritten. */
  function Overwritten<W>(c: Context<W>, cards: seq<real>, rating: int, duration: real, state: real): (r: seq<real>)
    requires |cards| == 24
    ensures |r| == 24
  {
    cards[8 := c.scale.toF32(c.scale.duration(duration))]
         [9 := OneHot(rating, 1)][10 := OneHot(rating, 2)][11 := OneHot(rating, 3)][12 := OneHot(rating, 4)]
         [22 := c.scale.toF32(c.scale.state(state))][23 := 0.0]
  }

  function ProcessCardFeatures<W>(c: Context<W>, s: Features<W>, input: ReviewInput<real>): (r: seq<real>)
    requires input.Complete()
    ensures |r| == 24
  {
    Overwritten(c, QueryCardFeatures(c, s, input), input.rating.value, input.duration.value, input.state.value)
  }

  function DayValues<W>(c: Context<W>, s: Features<W>, input: ReviewInput<real>): seq<real> {
    var day := RelativeDay(s, input);
    c.scale.Days(day, Lookup(s.firstDay, input.cardId, day))
  }

  /** The state after a processed review: the missing encodings filled, the keys and the counters recorded. */
  function Processed<W>(c: Context<W>, s: Features<W>, input: ReviewInput<real>): (t: Features<W>)
    requires s.Valid()
    ensures t.Valid()
  {
    var ids := NormalizedReviewIds(input);
    RecordValues(RecordIds(FillEncodings(c, s, ids, 4), ids),
                 input.cardId, input.elapsedDays, input.elapsedSeconds, RelativeDay(s, input))
  }

  /** The features of a query: the direct values, the encodings as they would be filled, the day values. */
  function QueryFeatures<W>(c: Context<W>, s: Features<W>, input: ReviewInput<real>): seq<real>
    requires s.Valid()
  {
    QueryCardFeatures(c, s, input) + IdAndDayValues(c, s, input)
  }

  function ProcessFeatures<W>(c: Context<W>, s: Features<W>, input: ReviewInput<real>): seq<real>
    requires s.Valid() && input.Complete()
  {
    ProcessCardFeatures(c, s, input) + IdAndDayValues(c, s, input)
  }

  function IdAndDayValues<W>(c: Context<W>, s: Features<W>, input: ReviewInput<real>): seq<real>
    requires s.Valid()
  {
    var ids := NormalizedReviewIds(input);
    IdValues(FillEncodings(c, s, ids, 4), ids, 4) + DayValues(c, s, input)
  }

  function FusedRows<W>(c: Context<W>, s: Features<W>, input: ReviewInput<real>, includeQuery: bool): seq<real>
    requires s.Valid() && input.Complete()
  {
    (if includeQuery then QueryFeatures(c, s, input) else []) + ProcessFeatures(c, s, input)
  }

  function FusedStep<W>(c: Context<W>, s: Features<W>, input: ReviewInput<real>, includeQuery: bool)
    : (r: (Features<W>, Result<(Ids, seq<real>), FeatureError>))
    requires s.Valid()
    ensures r.0.Valid()
  {
    if input.rating.None? then (s, Err(MissingRating))
    else if input.duration.None? then (s, Err(MissingDuration))
    else if input.state.None? then (s, Err(MissingState))
    else
      var features := FusedRows(c, s, input, includeQuery);
      if |features| != (if includeQuery then 184 else 92) then
        (FillEncodings(c, s, NormalizedReviewIds(input), 4), Err(WrongFeatureCount(|features|)))
      else
        (Processed(c, s, input), Ok((NormalizedReviewIds(input), features)))
  }

  // ----- Batched prediction -----

  predicate AllEncoded<W>(s: Features<W>, ids: Ids)
    requires s.Valid()
  {
    forall k :: 0 <= k < 4 ==> IdOf(ids, k) in s.encodings[ID_SUBMODULES[k].0]
  }

  predicate AllRecurrent<W>(s: Features<W>, ids: Ids) {
    ids.card in s.keys.cards && ids.note in s.keys.notes && ids.deck in s.keys.decks && ids.preset in s.keys.presets
  }

  /** Whether every submodule's id of the row is encoded and has recurrent state. */
  function CanBatchPredict<W>(s: Features<W>, row: PreparedRow): Result<bool, FeatureError>
    requires s.Valid()
  {
    match NeedsRngRestore(s, row, 0)
    case Err(e) => Err(e)
    case Ok(true) => Ok(false)
    case Ok(false) =>
      match (GetI64(row, CardId), GetI64(row, NoteId), GetI64(row, DeckId), GetI64(row, PresetId))
      case (Err(e), _, _, _) => Err(e)
      case (Ok(card), Err(e), _, _) => if card in s.keys.cards then Err(e) else Ok(false)
      case (Ok(card), Ok(note), Err(e), _) => if card in s.keys.cards && note in s.keys.notes then Err(e) else Ok(false)
      case (Ok(card), Ok(note), Ok(deck), Err(e)) =>
        if card in s.keys.cards && note in s.keys.notes && deck in s.keys.decks then Err(e) else Ok(false)
      case (Ok(card), Ok(note), Ok(deck), Ok(preset)) => Ok(AllRecurrent(s, Ids(card, note, deck, preset)))
  }

  /** The query features built without a row, for identities that can be batched. */
  function DirectPredict<W>(c: Context<W>, s: Features<W>, input: ReviewInput<real>)
    : Result<Option<(seq<real>, Ids)>, FeatureError>
    requires s.Valid()
  {
    var ids := NormalizedReviewIds(input);
    if !AllEncoded(s, ids) || !AllRecurrent(s, ids) then Ok(None)
    else
      var features := QueryCardFeatures(c, s, input) + IdValues(s, ids, 4) + DayValues(c, s, input);
      if |features| != 92 then Err(WrongFeatureCount(|features|)) else Ok(Some((features, ids)))
  }
}
