/**
 The feature state as the program keeps it: counters and maps updated field by field, an owned
 generator, and feature vectors appended to a caller's list. Every method is tied to its function in
 module FeatureSpec.
 */
module FeatureState {
  import opened Wrappers
  import opened ReviewRows
  import opened BlockGenerator
  import opened FeatureSpec
  import opened FeatureEquivalence

  class FeatureState<W(0)> {
    const context: Context<W>
    var firstDayOffset: Option<real>
    var prevDayOffset: Option<real>
    var cardSet: set<int>
    var cardCount: int
    var lastNewCards: map<int, int>
    var i: int
    var lastI: map<int, int>
    var today: real
    var todayReviews: int
    var todayNewCards: int
    var card2FirstDayOffset: map<int, real>
    var card2ElapsedDaysCumulative: map<int, real>
    var card2ElapsedSecondsCumulative: map<int, real>
    var idEncodings: IdEncodings
    var recurrentStateKeys: StateKeys
    var idRng: BlockRng<W>

    ghost function View(): (s: Features<W>)
      reads this, idRng, idRng.state
    {
      Features(firstDayOffset, prevDayOffset, cardSet, cardCount, lastNewCards, i, lastI, today, todayReviews,
               todayNewCards, card2FirstDayOffset, card2ElapsedDaysCumulative, card2ElapsedSecondsCumulative,
               idEncodings, recurrentStateKeys, idRng.Value())
    }

    ghost predicate Valid()
      reads this, idRng, idRng.state
    {
      idRng.Valid() && idRng.engine == context.engine && View().Valid()
    }

    constructor WithTorchSeed(context: Context<W>, seed: u64)
      ensures Valid() && fresh(idRng) && fresh(idRng.state) && this.context == context
      ensures View() == FeatureSpec.WithTorchSeed(context, seed)
    {
      this.context := context;
      firstDayOffset, prevDayOffset := None, None;
      cardSet, cardCount, lastNewCards, i, lastI := {}, 0, map[], 0, map[];
      today, todayReviews, todayNewCards := -1.0, 0, 0;
      card2FirstDayOffset, card2ElapsedDaysCumulative, card2ElapsedSecondsCumulative := map[], map[], map[];
      idEncodings := map[CardId := map[], NoteId := map[], DeckId := map[], PresetId := map[]];
      recurrentStateKeys := StateKeys({}, {}, {}, {}, false);
      idRng := new BlockRng.SeedFromU64(context.engine, seed);
    }

    method AppendCardFeatures(row: PreparedRow) returns (r: Result<seq<real>, FeatureError>)
      ensures r == CardFeatures(context, row, |CARD_FEATURE_COLUMNS|)
    {
      var features := [];
      for k := 0 to |CARD_FEATURE_COLUMNS|
        invariant CardFeatures(context, row, k) == Ok(features)
      {
        var value := GetF64(row, CARD_FEATURE_COLUMNS[k]);
        if value.Err? {
          CardErrorStays(row, k + 1, value.error);
          return Err(value.error);
        }
        features := features + [context.scale.toF32(value.value)];
      }
      return Ok(features);
    }

    lemma CardErrorStays(row: PreparedRow, k: nat, e: FeatureError)
      requires k <= |CARD_FEATURE_COLUMNS| && CardFeatures(context, row, k) == Err(e)
      ensures CardFeatures(context, row, |CARD_FEATURE_COLUMNS|) == Err(e)
      decreases |CARD_FEATURE_COLUMNS| - k
    {
      if k < |CARD_FEATURE_COLUMNS| {
        CardErrorStays(row, k + 1, e);
      }
    }

    /** The stored or newly drawn encoding of one id. */
    method EncodingOf(submodule: Column, dim: nat, id: int, mutate: bool) returns (encoding: seq<real>)
      requires Valid() && submodule in idEncodings
      modifies this`idEncodings, idRng, idRng.state
      ensures Valid()
      ensures var s := old(View());
        if id in s.encodings[submodule] then View() == s && encoding == s.encodings[submodule][id]
        else
          var (rng, drawn) := EncodeFrom(context.engine, s.rng, dim);
          && encoding == drawn
          && View() == if mutate then s.(rng := rng, encodings := Insert(s.encodings, submodule, id, drawn))
              else s.(rng := rng)
    {
      if id in idEncodings[submodule] {
        return idEncodings[submodule][id];
      }
      encoding := idRng.IdEncoding(dim);
      if mutate {
        idEncodings := idEncodings[submodule := idEncodings[submodule][id := encoding]];
      }
    }

    /** Appends the stored or newly drawn encodings; a failed id stops it with the draws made so far. */
    method AppendEncodings(row: PreparedRow, mutate: bool) returns (r: Result<seq<real>, FeatureError>)
      requires Valid()
      modifies this`idEncodings, idRng, idRng.state
      ensures Valid() && (View(), r) == EncodeRow(context, old(View()), row, 4, mutate)
    {
      ghost var s := View();
      var features := [];
      for k := 0 to |ID_SUBMODULES|
        invariant Valid() && (View(), Ok(features)) == EncodeRow(context, s, row, k, mutate)
      {
        var next := AppendNext(s, row, k, mutate, features);
        if next.Err? {
          EncodeErrorStays(s, row, k + 1, mutate, View(), next.error);
          return next;
        }
        features := next.value;
      }
      return Ok(features);
    }

    method AppendNext(ghost s: Features<W>, row: PreparedRow, k: nat, mutate: bool, features: seq<real>)
      returns (r: Result<seq<real>, FeatureError>)
      requires Valid() && s.Valid() && k < |ID_SUBMODULES|
      requires (View(), Ok(features)) == EncodeRow(context, s, row, k, mutate)
      modifies this`idEncodings, idRng, idRng.state
      ensures Valid() && (View(), r) == EncodeRow(context, s, row, k + 1, mutate)
    {
      var (submodule, dim) := ID_SUBMODULES[k];
      var id := GetI64(row, submodule);
      if id.Err? {
        return Err(id.error);
      }
      var encoding := EncodingOf(submodule, dim, id.value, mutate);
      return Ok(features + encoding);
    }

    lemma EncodeErrorStays(s: Features<W>, row: PreparedRow, k: nat, mutate: bool, t: Features<W>, e: FeatureError)
      requires s.Valid() && k <= 4 && EncodeRow(context, s, row, k, mutate) == (t, Err(e))
      ensures EncodeRow(context, s, row, 4, mutate) == (t, Err(e))
      decreases 4 - k
    {
      if k < 4 {
        EncodeErrorStays(s, row, k + 1, mutate, t, e);
      }
    }

    method FeatureVector(row: PreparedRow, mutate: bool) returns (r: Result<seq<real>, FeatureError>)
      requires Valid()
      modifies this`idEncodings, idRng, idRng.state
      ensures Valid() && (View(), r) == FeatureSpec.FeatureVector(context, old(View()), row, mutate)
    {
      var cards := AppendCardFeatures(row);
      if cards.Err? {
        return cards;
      }
      var encodings := AppendEncodings(row, mutate);
      if encodings.Err? {
        return encodings;
      }
      var days := DayFeatures(context, row);
      if days.Err? {
        return days;
      }
      return Ok(cards.value + encodings.value + days.value);
    }

    method SkipNeedsRngRestore(row: PreparedRow, skip: bool) returns (r: Result<bool, FeatureError>)
      requires Valid()
      ensures r == if skip then NeedsRngRestore(View(), row, 0) else Ok(false)
    {
      if !skip {
        return Ok(false);
      }
      ghost var s := View();
      for k := 0 to |ID_SUBMODULES|
        invariant NeedsRngRestore(s, row, 0) == NeedsRngRestore(s, row, k)
      {
        var (submodule, _) := ID_SUBMODULES[k];
        var id := GetI64(row, submodule);
        if id.Err? {
          return Err(id.error);
        }
        if id.value !in idEncodings[submodule] {
          return Ok(true);
        }
      }
      return Ok(false);
    }

    /** Draws from the live generator and puts the saved copy back when an identity was unseen. */
    method PredictFeatureVector(row: PreparedRow) returns (r: Result<seq<real>, FeatureError>)
      requires Valid()
      modifies this`idEncodings, this`idRng, idRng, idRng.state
      ensures Valid() && (idRng == old(idRng) || fresh({idRng, idRng.state}))
      ensures (View(), r) == FeatureSpec.PredictFeatureVector(context, old(View()), row)
    {
      var restore := SkipNeedsRngRestore(row, true);
      if restore.Err? {
        return Err(restore.error);
      }
      var saved := idRng;
      if restore.value {
        saved := new BlockRng.Clone(idRng);
      }
      r := FeatureVector(row, false);
      if restore.value {
        idRng := saved;
      }
    }

    method RecordRecurrentIds(ids: Ids)
      requires Valid()
      modifies this`recurrentStateKeys
      ensures Valid() && View() == RecordIds(old(View()), ids)
    {
      recurrentStateKeys := StateKeys(
        recurrentStateKeys.cards + {ids.card}, recurrentStateKeys.notes + {ids.note},
        recurrentStateKeys.decks + {ids.deck}, recurrentStateKeys.presets + {ids.preset}, true);
    }

    method AddElapsed(cardId: int, elapsedDays: real, elapsedSeconds: real)
      requires Valid()
      modifies this`card2ElapsedDaysCumulative, this`card2ElapsedSecondsCumulative
      ensures Valid() && View() == FeatureSpec.AddElapsed(old(View()), cardId, elapsedDays, elapsedSeconds)
    {
      card2ElapsedDaysCumulative :=
        card2ElapsedDaysCumulative[cardId := Lookup(card2ElapsedDaysCumulative, cardId, 0.0) + elapsedDays];
      card2ElapsedSecondsCumulative :=
        card2ElapsedSecondsCumulative[cardId := Lookup(card2ElapsedSecondsCumulative, cardId, 0.0) + elapsedSeconds];
    }

    method TurnDay(dayOffset: real)
      requires Valid()
      modifies this`firstDayOffset, this`today, this`todayReviews, this`todayNewCards
      ensures Valid() && View() == FeatureSpec.TurnDay(old(View()), dayOffset)
    {
      if firstDayOffset.None? {
        firstDayOffset := Some(dayOffset);
      }
      if dayOffset != today {
        today := dayOffset;
        todayNewCards := 0;
        todayReviews := -1;
      }
      todayReviews := todayReviews + 1;
    }

    method CountNewCard(cardId: int, dayOffset: real)
      requires Valid() && firstDayOffset.Some?
      modifies this`todayNewCards, this`cardSet, this`cardCount, this`card2FirstDayOffset
      ensures Valid() && View() == FeatureSpec.CountNewCard(old(View()), cardId, dayOffset)
    {
      if cardId !in cardSet {
        todayNewCards := todayNewCards + 1;
        cardSet := cardSet + {cardId};
        cardCount := cardCount + 1;
        card2FirstDayOffset := card2FirstDayOffset[cardId := dayOffset - firstDayOffset.value];
      }
    }

    method MarkLast(cardId: int, dayOffset: real)
      requires Valid()
      modifies this`prevDayOffset, this`lastI, this`lastNewCards, this`i
      ensures Valid() && View() == FeatureSpec.MarkLast(old(View()), cardId, dayOffset)
    {
      prevDayOffset := Some(dayOffset);
      lastI := lastI[cardId := i];
      lastNewCards := lastNewCards[cardId := cardCount];
      i := i + 1;
    }

    method RecordProcessedValues(cardId: int, elapsedDays: real, elapsedSeconds: real, dayOffset: real)
      requires Valid()
      modifies this
      ensures Valid() && idRng == old(idRng)
      ensures View() == RecordValues(old(View()), cardId, elapsedDays, elapsedSeconds, dayOffset)
    {
      RecordInSteps(View(), cardId, elapsedDays, elapsedSeconds, dayOffset);
      AddElapsed(cardId, elapsedDays, elapsedSeconds);
      TurnDay(dayOffset);
      CountNewCard(cardId, dayOffset);
      MarkLast(cardId, dayOffset);
    }

    method RecordRecurrentStateUpdate(row: PreparedRow) returns (r: Result<(), FeatureError>)
      requires Valid()
      modifies this`recurrentStateKeys
      ensures Valid()
      ensures match RecordRecurrentRow(old(View()), row)
        case Ok(s) => r == Ok(()) && View() == s
        case Err(e) => r == Err(e) && View() == old(View())
    {
      var card := GetI64(row, CardId);
      if card.Err? { return Err(card.error); }
      var note := GetI64(row, NoteId);
      if note.Err? { return Err(note.error); }
      var deck := GetI64(row, DeckId);
      if deck.Err? { return Err(deck.error); }
      var preset := GetI64(row, PresetId);
      if preset.Err? { return Err(preset.error); }
      RecordRecurrentIds(Ids(card.value, note.value, deck.value, preset.value));
      return Ok(());
    }

    method RecordProcessedRow(row: PreparedRow) returns (r: Result<(), FeatureError>)
      requires Valid()
      modifies this
      ensures Valid() && idRng == old(idRng)
      ensures match FeatureSpec.RecordProcessedRow(old(View()), row)
        case Ok(s) => r == Ok(()) && View() == s
        case Err(e) => r == Err(e) && View() == old(View())
    {
      var card := GetI64(row, CardId);
      if card.Err? { return Err(card.error); }
      var days := GetF64(row, ElapsedDays);
      if days.Err? { return Err(days.error); }
      var seconds := GetF64(row, ElapsedSeconds);
      if seconds.Err? { return Err(seconds.error); }
      var day := GetF64(row, DayOffset);
      if day.Err? { return Err(day.error); }
      RecordProcessedValues(card.value, days.value, seconds.value, day.value);
      return Ok(());
    }

    /** The counters of a row for a card on a day. */
    method RowCounters(cardId: int, day: real)
      returns (diffNewCards: int, diffReviews: int, newCards: int, reviews: int)
      requires Valid()
      ensures diffNewCards == UnscaledDiffNewCards(View(), cardId) && diffReviews == UnscaledDiffReviews(View(), cardId)
      ensures newCards == RowTodayNewCards(View(), day, cardId) && reviews == RowTodayReviews(View(), day)
    {
      diffNewCards := if cardId in lastNewCards then Max0(cardCount - lastNewCards[cardId]) else 0;
      diffReviews := if cardId in lastI then Max0(i - lastI[cardId] - 1) else 0;
      reviews, newCards := todayReviews, todayNewCards;
      if day != today {
        newCards := 0;
        reviews := -1;
      }
      reviews := reviews + 1;
      if cardId !in cardSet {
        newCards := newCards + 1;
      }
    }

    /** The quantities behind the query values, read straight off the fields. */
    method ReadCardInputs(input: ReviewInput<real>) returns (q: CardInputs)
      requires Valid()
      ensures q == CardInputsOf(View(), input)
    {
      var cardId := input.cardId;
      var noteMissing := NormalizeId(input.noteId, Some(cardId)).1;
      var deckMissing := NormalizeId(input.deckId, None).1;
      var presetMissing := NormalizeId(input.presetId, None).1;
      var daysCumulative := Lookup(card2ElapsedDaysCumulative, cardId, 0.0) + input.elapsedDays;
      var secondsCumulative := Lookup(card2ElapsedSecondsCumulative, cardId, 0.0) + input.elapsedSeconds;
      var day := if firstDayOffset.Some? then input.dayOffset - firstDayOffset.value else 0.0;
      var diffNewCards, diffReviews, newCards, reviews := RowCounters(cardId, day);
      q := CardInputs(input.elapsedDays, daysCumulative, input.elapsedSeconds, secondsCumulative,
                      noteMissing, deckMissing, presetMissing, day - prevDayOffset.GetOr(0.0), day,
                      diffNewCards, diffReviews, newCards, reviews);
    }

    /** The query values turned into process values: duration, one-hot rating, state and query flag. */
    method OverwriteProcessFields(query: seq<real>, rating: int, duration: real, state: real) returns (cards: seq<real>)
      requires |query| == 24
      ensures cards == Overwritten(context, query, rating, duration, state)
    {
      cards := query[8 := context.scale.toF32(context.scale.duration(duration))];
      ghost var start := cards;
      for index := 1 to 5
        invariant |cards| == 24
        invariant forall j :: 0 <= j < 24 ==> cards[j] == if 8 < j < 8 + index then OneHot(rating, j - 8) else start[j]
      {
        cards := cards[8 + index := OneHot(rating, index)];
      }
      cards := cards[22 := context.scale.toF32(context.scale.state(state))];
      cards := cards[23 := 0.0];
    }

    method StoreIfMissing(ids: Ids, k: nat)
      requires Valid() && k < 4
      modifies this`idEncodings, idRng, idRng.state
      ensures Valid() && View() == FillOne(context, old(View()), ids, k)
    {
      var (submodule, dim) := ID_SUBMODULES[k];
      var id := IdOf(ids, k);
      if id !in idEncodings[submodule] {
        var encoding := idRng.IdEncoding(dim);
        idEncodings := idEncodings[submodule := idEncodings[submodule][id := encoding]];
      }
    }

    /** Stores the missing encodings and appends all four when the query row is wanted. */
    method FillAndAppend(ids: Ids, includeQuery: bool) returns (features: seq<real>)
      requires Valid()
      modifies this`idEncodings, idRng, idRng.state
      ensures Valid() && View() == FillEncodings(context, old(View()), ids, 4)
      ensures features == if includeQuery then IdValues(View(), ids, 4) else []
    {
      ghost var s := View();
      features := [];
      for k := 0 to |ID_SUBMODULES|
        invariant Valid() && View() == FillEncodings(context, s, ids, k)
        invariant features == if includeQuery then IdValues(View(), ids, k) else []
      {
        ghost var before := View();
        StoreIfMissing(ids, k);
        SameEncodingsSameValues(before, View(), ids, k);
        if includeQuery {
          features := features + idEncodings[ID_SUBMODULES[k].0][IdOf(ids, k)];
        }
      }
    }

    method AppendStored(ids: Ids) returns (features: seq<real>)
      requires Valid() && AllEncoded(View(), ids)
      ensures features == IdValues(View(), ids, 4)
    {
      ghost var s := View();
      features := [];
      for k := 0 to |ID_SUBMODULES|
        invariant features == IdValues(s, ids, k)
      {
        features := features + idEncodings[ID_SUBMODULES[k].0][IdOf(ids, k)];
      }
    }

    /** Both rows of a review in one pass over the fields; the missing encodings are stored on the way. */
    method FeatureRows(input: ReviewInput<real>, ids: Ids, includeQuery: bool) returns (features: seq<real>, day: real)
      requires Valid() && input.Complete() && ids == NormalizedReviewIds(input)
      modifies this`idEncodings, idRng, idRng.state
      ensures Valid() && View() == FillEncodings(context, old(View()), ids, 4)
      ensures features == FusedRows(context, old(View()), input, includeQuery)
      ensures day == RelativeDay(old(View()), input)
    {
      ghost var s := View();
      var q := ReadCardInputs(input);
      day := q.day;
      var days := context.scale.Days(day, Lookup(card2FirstDayOffset, input.cardId, day));
      assert days == DayValues(context, s, input);
      var query := CardArray(context.scale, q);
      var encodings := FillAndAppend(ids, includeQuery);
      var cards := OverwriteProcessFields(query, input.rating.value, input.duration.value, input.state.value);
      var stored := AppendStored(ids);
      features := if includeQuery then query + encodings + days else [];
      features := features + cards + stored + days;
      RowsAppended(s, input, includeQuery, query, encodings, cards, stored, days);
    }

    lemma RowsAppended(s: Features<W>, input: ReviewInput<real>, includeQuery: bool,
                       query: seq<real>, encodings: seq<real>, cards: seq<real>, stored: seq<real>, days: seq<real>)
      requires s.Valid() && input.Complete()
      requires query == QueryCardFeatures(context, s, input) && cards == ProcessCardFeatures(context, s, input)
      requires IdAndDayValues(context, s, input) == stored + days
      requires includeQuery ==> encodings == stored
      ensures (if includeQuery then query + encodings + days else []) + cards + stored + days
          == FusedRows(context, s, input, includeQuery)
    {
      RowsAssociate(includeQuery, query, cards, stored, days);
    }

    static lemma RowsAssociate(includeQuery: bool, query: seq<real>, cards: seq<real>, stored: seq<real>,
                               days: seq<real>)
      ensures (if includeQuery then query + stored + days else []) + cards + stored + days
          == (if includeQuery then query + (stored + days) else []) + (cards + (stored + days))
    {
      var before := if includeQuery then query + stored + days else [];
      assert query + stored + days == query + (stored + days);
      assert before + cards + stored + days == before + (cards + (stored + days));
    }

    /** Query features without a row; nothing is returned for an identity that cannot be batched. */
    method DirectPredictFeatures(input: ReviewInput<real>) returns (r: Result<Option<(seq<real>, Ids)>, FeatureError>)
      requires Valid()
      ensures r == DirectPredict(context, View(), input)
    {
      var ids := NormalizedReviewIds(input);
      for k := 0 to |ID_SUBMODULES|
        invariant forall j :: 0 <= j < k ==> IdOf(ids, j) in idEncodings[ID_SUBMODULES[j].0]
      {
        if IdOf(ids, k) !in idEncodings[ID_SUBMODULES[k].0] {
          return Ok(None);
        }
      }
      if ids.card !in recurrentStateKeys.cards || ids.note !in recurrentStateKeys.notes
         || ids.deck !in recurrentStateKeys.decks || ids.preset !in recurrentStateKeys.presets {
        return Ok(None);
      }
      var q := ReadCardInputs(input);
      var days := context.scale.Days(q.day, Lookup(card2FirstDayOffset, input.cardId, q.day));
      assert days == DayValues(context, View(), input);
      var stored := AppendStored(ids);
      var features := CardArray(context.scale, q) + stored + days;
      if |features| != 92 {
        return Err(WrongFeatureCount(|features|));
      }
      return Ok(Some((features, ids)));
    }

    /** The fused path: the rows, their length check, then the records. */
    method AppendProcessFeatureRows(input: ReviewInput<real>, includeQuery: bool)
      returns (r: Result<(Ids, seq<real>), FeatureError>)
      requires Valid()
      modifies this, idRng, idRng.state
      ensures Valid() && idRng == old(idRng)
      ensures (View(), r) == FusedStep(context, old(View()), input, includeQuery)
    {
      if input.rating.None? {
        return Err(MissingRating);
      }
      if input.duration.None? {
        return Err(MissingDuration);
      }
      if input.state.None? {
        return Err(MissingState);
      }
      var ids := NormalizedReviewIds(input);
      var features, day := FeatureRows(input, ids, includeQuery);
      if |features| != (if includeQuery then 184 else 92) {
        return Err(WrongFeatureCount(|features|));
      }
      RecordRecurrentIds(ids);
      RecordProcessedValues(input.cardId, input.elapsedDays, input.elapsedSeconds, day);
      return Ok((ids, features));
    }
  }
}
