/** What stands at each place of the rows that processing a review answers with. */
module FeatureMeaning {
  import opened Wrappers
  import opened ReviewRows
  import opened BlockGenerator
  import opened FeatureSpec
  import opened FeatureEquivalence

  /** The second half of the answer to a review, and the first where the query was asked for. */
  function ProcessHalf<W>(c: Context<W>, s: Features<W>, input: ReviewInput<real>, includeQuery: bool): (r: seq<real>)
    requires s.Valid() && FusedStep(c, s, input, includeQuery).1.Ok?
    ensures |r| == 92
  {
    FusedStep(c, s, input, includeQuery).1.value.1[if includeQuery then 92 else 0..]
  }

  function QueryHalf<W>(c: Context<W>, s: Features<W>, input: ReviewInput<real>): (r: seq<real>)
    requires s.Valid() && FusedStep(c, s, input, true).1.Ok?
    ensures |r| == 92
  {
    FusedStep(c, s, input, true).1.value.1[..92]
  }

  lemma ProcessHalfIs<W>(c: Context<W>, s: Features<W>, input: ReviewInput<real>, includeQuery: bool)
    requires s.Valid() && FusedStep(c, s, input, includeQuery).1.Ok?
    ensures input.Complete() && |IdAndDayValues(c, s, input)| == 68
    ensures ProcessHalf(c, s, input, includeQuery) == ProcessCardFeatures(c, s, input) + IdAndDayValues(c, s, input)
  {
    var query, process := QueryFeatures(c, s, input), ProcessFeatures(c, s, input);
    assert |query| == |process|;
    var features := FusedStep(c, s, input, includeQuery).1.value.1;
    assert features == (if includeQuery then query else []) + process;
  }

  lemma QueryHalfIs<W>(c: Context<W>, s: Features<W>, input: ReviewInput<real>)
    requires s.Valid() && FusedStep(c, s, input, true).1.Ok?
    ensures input.Complete() && |IdAndDayValues(c, s, input)| == 68
    ensures QueryHalf(c, s, input) == QueryCardFeatures(c, s, input) + IdAndDayValues(c, s, input)
  {
    var query, process := QueryFeatures(c, s, input), ProcessFeatures(c, s, input);
    assert |query| == |process|;
  }

  lemma ProcessCardAt<W>(c: Context<W>, s: Features<W>, input: ReviewInput<real>, includeQuery: bool, k: nat)
    requires s.Valid() && FusedStep(c, s, input, includeQuery).1.Ok? && k < 24
    ensures input.Complete() && ProcessHalf(c, s, input, includeQuery)[k] == ProcessCardFeatures(c, s, input)[k]
  {
    ProcessHalfIs(c, s, input, includeQuery);
  }

  // ----- The review's own answer -----

  lemma OverwrittenAt<W>(c: Context<W>, cards: seq<real>, rating: int, duration: real, state: real, k: nat)
    requires |cards| == 24 && k < 24
    ensures Overwritten(c, cards, rating, duration, state)[k] ==
      if k == 8 then c.scale.toF32(c.scale.duration(duration))
      else if 9 <= k <= 12 then if rating == k - 8 then 1.0 else 0.0
      else if k == 22 then c.scale.toF32(c.scale.state(state))
      else if k == 23 then 0.0
      else cards[k]
  {
  }

  /** Exactly the column of the rating is set, and the query flag is not. */
  lemma AnswerColumns<W>(c: Context<W>, s: Features<W>, input: ReviewInput<real>, includeQuery: bool)
    requires s.Valid() && FusedStep(c, s, input, includeQuery).1.Ok?
    ensures input.Complete()
    ensures var p := ProcessHalf(c, s, input, includeQuery);
      && p[8] == c.scale.toF32(c.scale.duration(input.duration.value))
      && p[9] == (if input.rating.value == 1 then 1.0 else 0.0)
      && p[10] == (if input.rating.value == 2 then 1.0 else 0.0)
      && p[11] == (if input.rating.value == 3 then 1.0 else 0.0)
      && p[12] == (if input.rating.value == 4 then 1.0 else 0.0)
      && p[22] == c.scale.toF32(c.scale.state(input.state.value))
      && p[23] == 0.0
  {
    forall k: nat | 8 <= k < 24
      ensures input.Complete() && ProcessHalf(c, s, input, includeQuery)[k] == ProcessCardFeatures(c, s, input)[k]
    {
      ProcessCardAt(c, s, input, includeQuery, k);
    }
    var cards := QueryCardFeatures(c, s, input);
    forall k: nat | 8 <= k < 24 {
      OverwrittenAt(c, cards, input.rating.value, input.duration.value, input.state.value, k);
    }
  }

  // ----- The columns that query and processing share -----

  function AtLeastZero(x: int): int {
    if x >= 0 then x else 0
  }

  /** The elapsed times of the review and the card's sums with it. */
  ghost predicate ElapsedColumns<W>(scale: Scaling, s: Features<W>, input: ReviewInput<real>, row: seq<real>) {
    var days := input.elapsedDays + (if input.cardId in s.daysSum then s.daysSum[input.cardId] else 0.0);
    var seconds := input.elapsedSeconds + (if input.cardId in s.secondsSum then s.secondsSum[input.cardId] else 0.0);
    && |row| >= 24
    && row[0] == scale.toF32(scale.elapsedDays(input.elapsedDays))
    && row[1] == scale.toF32(scale.elapsedDaysCumulative(days))
    && row[2] == scale.toF32(scale.elapsedSeconds(input.elapsedSeconds))
    && row[3] == scale.toF32(scale.secondsSin(input.elapsedSeconds))
    && row[4] == scale.toF32(scale.secondsCos(input.elapsedSeconds))
    && row[5] == scale.toF32(scale.elapsedSecondsCumulative(seconds))
    && row[6] == scale.toF32(scale.secondsSin(seconds))
    && row[7] == scale.toF32(scale.secondsCos(seconds))
  }

  /** Which of note, deck and preset are missing. */
  ghost predicate MissingColumns(scale: Scaling, input: ReviewInput<real>, row: seq<real>) {
    && |row| >= 24
    && row[13] == scale.toF32(if input.noteId.Missing? then 1.0 else 0.0)
    && row[14] == scale.toF32(if input.deckId.Missing? then 1.0 else 0.0)
    && row[15] == scale.toF32(if input.presetId.Missing? then 1.0 else 0.0)
  }

  /** The day, and the reviews and new cards since the card's last review and today, the coming review included. */
  ghost predicate CounterColumns<W>(scale: Scaling, s: Features<W>, input: ReviewInput<real>, row: seq<real>) {
    var card := input.cardId;
    var day := if s.firstDayOffset.Some? then input.dayOffset - s.firstDayOffset.value else 0.0;
    var before := if s.prevDayOffset.Some? then s.prevDayOffset.value else 0.0;
    var newCards := if card in s.lastNewCards then AtLeastZero(s.cardCount - s.lastNewCards[card]) else 0;
    var reviews := if card in s.lastI then AtLeastZero(s.i - s.lastI[card] - 1) else 0;
    var newToday := (if day == s.today then s.todayNewCards else 0) + (if card in s.cardSet then 0 else 1);
    var reviewsToday := if day == s.today then s.todayReviews + 1 else 0;
    && |row| >= 24
    && row[16] == scale.toF32(scale.dayOffsetDiff(day - before))
    && row[17] == scale.toF32(scale.dayOfWeek(day))
    && row[18] == scale.toF32(scale.diffNewCards(newCards as real))
    && row[19] == scale.toF32(scale.diffReviews(reviews as real))
    && row[20] == scale.toF32(scale.newCardsToday(newToday as real))
    && row[21] == scale.toF32(scale.reviewsToday(reviewsToday as real))
  }

  lemma QueryElapsed<W>(c: Context<W>, s: Features<W>, input: ReviewInput<real>)
    ensures ElapsedColumns(c.scale, s, input, QueryCardFeatures(c, s, input))
  {
    ElapsedValues(c.scale, CardInputsOf(s, input));
    MoreElapsedValues(c.scale, CardInputsOf(s, input));
  }

  lemma ElapsedValues(scale: Scaling, q: CardInputs)
    ensures var row := CardArray(scale, q);
      && row[0] == scale.toF32(scale.elapsedDays(q.elapsedDays))
      && row[1] == scale.toF32(scale.elapsedDaysCumulative(q.daysCumulative))
      && row[2] == scale.toF32(scale.elapsedSeconds(q.elapsedSeconds))
      && row[3] == scale.toF32(scale.secondsSin(q.elapsedSeconds))
  {
  }

  lemma MoreElapsedValues(scale: Scaling, q: CardInputs)
    ensures var row := CardArray(scale, q);
      && row[4] == scale.toF32(scale.secondsCos(q.elapsedSeconds))
      && row[5] == scale.toF32(scale.elapsedSecondsCumulative(q.secondsCumulative))
      && row[6] == scale.toF32(scale.secondsSin(q.secondsCumulative))
      && row[7] == scale.toF32(scale.secondsCos(q.secondsCumulative))
  {
  }

  lemma QueryMissing<W>(c: Context<W>, s: Features<W>, input: ReviewInput<real>)
    ensures MissingColumns(c.scale, input, QueryCardFeatures(c, s, input))
  {
    MissingValues(c.scale, CardInputsOf(s, input));
  }

  lemma MissingValues(scale: Scaling, q: CardInputs)
    ensures var row := CardArray(scale, q);
      row[13] == scale.toF32(q.noteMissing) && row[14] == scale.toF32(q.deckMissing)
      && row[15] == scale.toF32(q.presetMissing)
  {
  }

  lemma QueryCounters<W>(c: Context<W>, s: Features<W>, input: ReviewInput<real>)
    ensures CounterColumns(c.scale, s, input, QueryCardFeatures(c, s, input))
  {
    CounterValues(c.scale, CardInputsOf(s, input));
  }

  lemma CounterValues(scale: Scaling, q: CardInputs)
    ensures var row := CardArray(scale, q);
      && row[16] == scale.toF32(scale.dayOffsetDiff(q.dayDiff))
      && row[17] == scale.toF32(scale.dayOfWeek(q.day))
      && row[18] == scale.toF32(scale.diffNewCards(q.diffNewCards as real))
      && row[19] == scale.toF32(scale.diffReviews(q.diffReviews as real))
      && row[20] == scale.toF32(scale.newCardsToday(q.newCards as real))
      && row[21] == scale.toF32(scale.reviewsToday(q.reviews as real))
  {
  }

  lemma OwnValues(scale: Scaling, q: CardInputs)
    ensures var row := CardArray(scale, q);
      row[8] == row[9] == row[10] == row[11] == row[12] == row[22] == 0.0 && row[23] == 1.0
  {
  }

  ghost predicate SharedColumns<W>(scale: Scaling, s: Features<W>, input: ReviewInput<real>, row: seq<real>) {
    ElapsedColumns(scale, s, input, row) && MissingColumns(scale, input, row) && CounterColumns(scale, s, input, row)
  }

  lemma SharedByPrefix<W>(scale: Scaling, s: Features<W>, input: ReviewInput<real>, cards: seq<real>, row: seq<real>)
    requires SharedColumns(scale, s, input, cards) && |cards| == 24 <= |row|
    requires forall k :: 0 <= k < 8 || 13 <= k < 22 ==> row[k] == cards[k]
    ensures SharedColumns(scale, s, input, row)
  {
  }

  /** The columns every answer to the review carries, in both halves. */
  lemma ReviewColumns<W>(c: Context<W>, s: Features<W>, input: ReviewInput<real>, includeQuery: bool)
    requires s.Valid() && FusedStep(c, s, input, includeQuery).1.Ok?
    ensures SharedColumns(c.scale, s, input, ProcessHalf(c, s, input, includeQuery))
    ensures includeQuery ==> SharedColumns(c.scale, s, input, QueryHalf(c, s, input))
  {
    var cards := QueryCardFeatures(c, s, input);
    QueryElapsed(c, s, input);
    QueryMissing(c, s, input);
    QueryCounters(c, s, input);
    ProcessHalfIs(c, s, input, includeQuery);
    var p := ProcessHalf(c, s, input, includeQuery);
    forall k: nat | k < 8 || 13 <= k < 22 ensures p[k] == cards[k] {
      OverwrittenAt(c, cards, input.rating.value, input.duration.value, input.state.value, k);
    }
    SharedByPrefix(c.scale, s, input, cards, p);
    if includeQuery {
      QueryHalfIs(c, s, input);
      SharedByPrefix(c.scale, s, input, cards, QueryHalf(c, s, input));
    }
  }

  /** A query carries no answer and its flag. */
  lemma QueryColumns<W>(c: Context<W>, s: Features<W>, input: ReviewInput<real>)
    requires s.Valid() && FusedStep(c, s, input, true).1.Ok?
    ensures var q := QueryHalf(c, s, input);
      q[8] == q[9] == q[10] == q[11] == q[12] == q[22] == 0.0 && q[23] == 1.0
  {
    QueryHalfIs(c, s, input);
    OwnValues(c.scale, CardInputsOf(s, input));
  }

  // ----- Identities and days -----

  /** The ids of the answer: a missing note stands for the card, a missing deck or preset for none. */
  lemma AnswerIds<W>(c: Context<W>, s: Features<W>, input: ReviewInput<real>, includeQuery: bool)
    requires s.Valid() && FusedStep(c, s, input, includeQuery).1.Ok?
    ensures FusedStep(c, s, input, includeQuery).1.value.0 ==
      Ids(input.cardId,
          if input.noteId.Present? then input.noteId.id else 314_159_265_358_979_323 + input.cardId,
          if input.deckId.Present? then input.deckId.id else 314_159_265_358_979_323,
          if input.presetId.Present? then input.presetId.id else 314_159_265_358_979_323)
  {
  }

  ghost predicate Stored<W>(t: Features<W>, column: Column, id: int, encoding: seq<real>) {
    column in t.encodings && id in t.encodings[column] && t.encodings[column][id] == encoding
  }

  /** The encodings of card, note, deck and preset as stored afterwards, then the encoding of the two days. */
  ghost predicate IdentityColumns<W>(scale: Scaling, s: Features<W>, t: Features<W>, input: ReviewInput<real>, ids: Ids,
                                     row: seq<real>)
  {
    var day := if s.firstDayOffset.Some? then input.dayOffset - s.firstDayOffset.value else 0.0;
    var first := if input.cardId in s.firstDay then s.firstDay[input.cardId] else day;
    && |row| == 92
    && Stored(t, CardId, ids.card, row[24..36]) && Stored(t, NoteId, ids.note, row[36..48])
    && Stored(t, DeckId, ids.deck, row[48..56]) && Stored(t, PresetId, ids.preset, row[56..64])
    && row[64..92] == scale.dayEncoding(day, first)
  }

  lemma IdValuesPlaced<W>(t: Features<W>, ids: Ids)
    requires t.Valid() && t.Dimensioned()
    requires forall j :: 0 <= j < 4 ==> IdOf(ids, j) in t.encodings[ID_SUBMODULES[j].0]
    ensures var values := IdValues(t, ids, 4);
      && |values| == 40
      && Stored(t, CardId, ids.card, values[0..12]) && Stored(t, NoteId, ids.note, values[12..24])
      && Stored(t, DeckId, ids.deck, values[24..32]) && Stored(t, PresetId, ids.preset, values[32..40])
  {
    assert ID_SUBMODULES[0] == (CardId, 12) && ID_SUBMODULES[1] == (NoteId, 12);
    assert ID_SUBMODULES[2] == (DeckId, 8) && ID_SUBMODULES[3] == (PresetId, 8);
    var cards, notes := t.encodings[CardId][ids.card], t.encodings[NoteId][ids.note];
    var decks, presets := t.encodings[DeckId][ids.deck], t.encodings[PresetId][ids.preset];
    assert IdValues(t, ids, 0) == [];
    assert IdValues(t, ids, 1) == [] + cards;
    assert IdValues(t, ids, 2) == [] + cards + notes;
    assert IdValues(t, ids, 3) == [] + cards + notes + decks;
    assert IdValues(t, ids, 4) == [] + cards + notes + decks + presets;
  }

  lemma SegmentsAt(cards: seq<real>, values: seq<real>, days: seq<real>, from: nat, to: nat)
    requires |cards| == 24 && from <= to <= |values|
    ensures (cards + (values + days))[24 + from..24 + to] == values[from..to]
  {
  }

  lemma RowPlaced<W>(scale: Scaling, s: Features<W>, t: Features<W>, input: ReviewInput<real>, ids: Ids,
                     cards: seq<real>, values: seq<real>, days: seq<real>)
    requires |cards| == 24 && |values| == 40 && |days| == 28
    requires var day := if s.firstDayOffset.Some? then input.dayOffset - s.firstDayOffset.value else 0.0;
      days == scale.dayEncoding(day, if input.cardId in s.firstDay then s.firstDay[input.cardId] else day)
    requires Stored(t, CardId, ids.card, values[0..12]) && Stored(t, NoteId, ids.note, values[12..24])
    requires Stored(t, DeckId, ids.deck, values[24..32]) && Stored(t, PresetId, ids.preset, values[32..40])
    ensures IdentityColumns(scale, s, t, input, ids, cards + (values + days))
  {
    SegmentsAt(cards, values, days, 0, 12);
    SegmentsAt(cards, values, days, 12, 24);
    SegmentsAt(cards, values, days, 24, 32);
    SegmentsAt(cards, values, days, 32, 40);
    assert (cards + (values + days))[64..92] == days;
  }

  lemma IdentitiesPlaced<W>(c: Context<W>, s: Features<W>, input: ReviewInput<real>, t: Features<W>, cards: seq<real>)
    requires c.scale.Sane() && s.Valid() && s.Dimensioned() && |cards| == 24
    requires |IdAndDayValues(c, s, input)| == 68
    requires t.encodings == FillEncodings(c, s, NormalizedReviewIds(input), 4).encodings
    ensures IdentityColumns(c.scale, s, t, input, NormalizedReviewIds(input), cards + IdAndDayValues(c, s, input))
  {
    var ids := NormalizedReviewIds(input);
    var filled := FillEncodings(c, s, ids, 4);
    FillKeepsDimensions(c, s, ids, 4);
    IdValuesPlaced(filled, ids);
    RowPlaced(c.scale, s, t, input, ids, cards, IdValues(filled, ids, 4), DayValues(c, s, input));
  }

  /** Behind the card features stand the four encodings, as the state stores them from then on, and the days. */
  lemma AnswerIdentities<W>(c: Context<W>, s: Features<W>, input: ReviewInput<real>, includeQuery: bool)
    requires c.scale.Sane() && s.Valid() && s.Dimensioned() && FusedStep(c, s, input, includeQuery).1.Ok?
    ensures var (t, answer) := FusedStep(c, s, input, includeQuery);
      && IdentityColumns(c.scale, s, t, input, answer.value.0, ProcessHalf(c, s, input, includeQuery))
      && (includeQuery ==> IdentityColumns(c.scale, s, t, input, answer.value.0, QueryHalf(c, s, input)))
  {
    var t := FusedStep(c, s, input, includeQuery).0;
    ProcessHalfIs(c, s, input, includeQuery);
    IdentitiesPlaced(c, s, input, t, ProcessCardFeatures(c, s, input));
    if includeQuery {
      QueryHalfIs(c, s, input);
      IdentitiesPlaced(c, s, input, t, QueryCardFeatures(c, s, input));
    }
  }

  /** The next generator and encoding for an id: the stored one, or the next `dim` draws. */
  function Drawn<W>(c: Context<W>, rng: Generator<W>, stored: map<int, seq<real>>, id: int, dim: nat)
    : (r: (Generator<W>, seq<real>))
    requires rng.Sized() && rng.CursorSafe()
    ensures r.0.Sized() && r.0.CursorSafe()
  {
    if id in stored then (rng, stored[id]) else EncodeFrom(c.engine, rng, dim)
  }

  lemma DrawnNext<W>(c: Context<W>, s: Features<W>, ids: Ids, k: nat)
    requires s.Valid() && k < 4
    ensures var (column, dim) := ID_SUBMODULES[k];
      var (rng, encoding) := Drawn(c, s.rng, s.encodings[column], IdOf(ids, k), dim);
      FillOne(c, s, ids, k).rng == rng && Stored(FillOne(c, s, ids, k), column, IdOf(ids, k), encoding)
  {
  }

  /** What is missing is drawn in the order card, note, deck, preset. */
  ghost predicate DrawnInOrder<W>(c: Context<W>, s: Features<W>, ids: Ids, t: Features<W>)
    requires s.Valid()
    requires CardId in s.encodings && NoteId in s.encodings && DeckId in s.encodings && PresetId in s.encodings
  {
    var (rng1, card) := Drawn(c, s.rng, s.encodings[CardId], ids.card, 12);
    var (rng2, note) := Drawn(c, rng1, s.encodings[NoteId], ids.note, 12);
    var (rng3, deck) := Drawn(c, rng2, s.encodings[DeckId], ids.deck, 8);
    var (rng4, preset) := Drawn(c, rng3, s.encodings[PresetId], ids.preset, 8);
    && t.rng == rng4
    && Stored(t, CardId, ids.card, card) && Stored(t, NoteId, ids.note, note)
    && Stored(t, DeckId, ids.deck, deck) && Stored(t, PresetId, ids.preset, preset)
  }

  lemma FilledInOrder<W>(c: Context<W>, s: Features<W>, ids: Ids)
    requires s.Valid()
    ensures CardId in s.encodings && NoteId in s.encodings && DeckId in s.encodings && PresetId in s.encodings
    ensures DrawnInOrder(c, s, ids, FillEncodings(c, s, ids, 4))
  {
    assert ID_SUBMODULES[0] == (CardId, 12) && ID_SUBMODULES[1] == (NoteId, 12);
    assert ID_SUBMODULES[2] == (DeckId, 8) && ID_SUBMODULES[3] == (PresetId, 8);
    var t1, t2, t3 := FillEncodings(c, s, ids, 1), FillEncodings(c, s, ids, 2), FillEncodings(c, s, ids, 3);
    assert FillEncodings(c, s, ids, 0) == s;
    DrawnNext(c, s, ids, 0);
    DrawnNext(c, t1, ids, 1);
    DrawnNext(c, t2, ids, 2);
    DrawnNext(c, t3, ids, 3);
  }

  /** A review draws the encodings it misses in the order card, note, deck, preset, and stores them. */
  lemma AnswerDraws<W>(c: Context<W>, s: Features<W>, input: ReviewInput<real>, includeQuery: bool)
    requires s.Valid() && FusedStep(c, s, input, includeQuery).1.Ok?
    ensures CardId in s.encodings && NoteId in s.encodings && DeckId in s.encodings && PresetId in s.encodings
    ensures var (t, answer) := FusedStep(c, s, input, includeQuery);
      DrawnInOrder(c, s, answer.value.0, t)
  {
    FilledInOrder(c, s, NormalizedReviewIds(input));
  }
}
