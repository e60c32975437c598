# A verified model of the rwkv-srs core

rwkv-srs schedules spaced-repetition reviews with a recurrent RWKV model. This project models the
parts of it whose behaviour is more than one formula deep, in the form the program gives them (objects
that change are classes, loops over buffers are loops over arrays), and proves what each part is for.

Every class and every loop is proved against a specification function; the lemmas then say what that
function means, by comparing it with an independent reference: the other code path, the history of
reviews, the mathematical recurrence, the inverse operation.

## Parts

**The random generator** (`BlockGenerator`, `RngState`, `Mersenne`). The generator keeps a block of 624
words, rewrites it in place and walks a cursor over it. `BlockGenerator` proves, for any word
arithmetic, that draw `n` is word `624 + n` of one infinite sequence and which cursors are safe;
`Mersenne` instantiates the 32-bit arithmetic and proves the sequence equal to that of
`mersenne_twister_engine` (section 26.5.3.2 of ISO C++14), written out beside it with its own seeding,
transition and tempering and the words of a known seed; `RngState` is the binary state format. Its parser accepts cursors that
no run produces and from which a draw fails; `DrawsForeverIffSafe` says exactly which.

**Review features** (`ReviewRows`, `FeatureSpec`, `FeatureRows`, `FeatureEquivalence`, `FeatureMeaning`,
`FeatureHistory`, `FeatureState`). A review's features are built either through string-keyed rows, a generator snapshot
and separate record calls, or in one fused pass. The two agree on every history, in rows, errors,
encodings, generator and counters; prediction observes and changes nothing; `FeatureMeaning` says what stands at each of the 92 places of
a row, from the review and the state alone; the incremental counters are plain functions of the history. The first day offset is recorded after it was made relative, so it
is 0 from the first review on and later relative days are the given offsets (`RelativeDayIs`). Two first
reviews on one given day therefore count as two days (`FirstDayCountsTwice`); `GivenDayCounters` says
for which histories the day counters are those of the given days.

**The live session** (`LiveSpec`, `LiveRanking`, `LiveInvariant`, `LiveRefresh`, `LiveReconcile`,
`LiveSimulation`, `LiveStatus`, `LiveMeaning`, `LiveObjects`, `LiveSession`). Candidates live in slots under an index
by card, carry one of four statuses, and are ranked, selected, refreshed a few at a time and
reconciled. `LiveSpec` is the session as a value with its operations, `LiveObjects` and `LiveSession`
are the objects the program mutates, and `LiveMeaning` spells out who is ranked before whom, what is
selected, what the predictor is asked and what each operation leaves behind. Two statements of the design hold only conditionally, and the
conditions are exact: incremental reconciliation refines the full one if and only if the target is
before no kept anchor, and the boundary found for one candidate is its least eligible extra if and
only if the rounded start of the search is not already past it (on a grid: if and only if the
prediction is not negative). Both conditions fail on concrete inputs: a session of one reviewed card
and a target before its review (`TargetBeforeReviewForgetsReview`, `TargetBeforeReviewIsRefused`), and
a subtraction that rounds up or a negative prediction (`RoundedStartOvershoots`,
`NegativePredictionOvershoots`).

**Kernels** (`RealVectors`, `WkvRow`, `WkvLanes`, `WkvHead`, `WkvTimestep`, `WkvBatch`,
`WkvOutputOnly`, `WkvFlat`, `TimeMixer`, `LinearProject`, `CurveInterval`). Over the reals, the scalar,
lane-split, algebraic, output-only, batched, chunked and zero-state forms of the recurrence compute
one matrix step; a deformation threshold is the one thing that separates the algebraic form from the
recurrence, and the program takes the algebraic form only without one. `WkvFlat` states that step once
more at the flat indices of its buffers, as the entry points promise it. The tiled projection writes
every output once. The interval search answers for any probability function, numbers or not; what the
answer is worth depends on the weights, which the program checks for finiteness only. With non-negative
weights an answer brackets the target if and only if the raw probability at one second is at most 1
(`AnswerIsSoundIff`), as it is for the weights the model produces (`SoftmaxIsSound`). An accepted card
whose weights sum to 128 is always answered with a time of no probability at all (`OverweightMisleads`).

**Formats and stores** (`LittleEndian`, `Payload`, `PayloadBuffers`, `PayloadLayout`, `Materialize`,
`TensorNames`, `ModelSchema`, `SchemaTable`, `WeightSpecs`, `ModelWeights`, `ModelLoading`,
`TensorIo`). Fixed-size review records and their parsers, byte by byte in `PayloadLayout`; the two-store
state migration; the weight schema, with every name and shape written out in `SchemaTable`, against the
constructor that consumes it; and nested lists against flat tensors.

`Wrappers` and `Lists` are shared helpers: options, results, filtering and insertion sort.

## Conventions

- Floating-point values are reals where rounding is not the point, 64-bit words with a finiteness
  predicate in the record format, and positions on an ordered integer line with an arbitrary monotone
  addition in the retention boundary.
- The scaling, trigonometric, square-root and exponential functions, the predictor and the state
  conversion are function values. What is assumed of them is written where they are used: narrowing to
  32 bits is exact on 0 and 1 and a day encoding has 28 values (`Scaling.Sane`), the
  exponential is 1 at 0 and, from there on, increasing and at least 1 + x, and the power of the decay
  lies between 0 and 1 and never grows with time (`Curve.Sound`), a conversion keeps the meaning of a
  state (`Codec.Faithful`).
- `Offset(rows, size)` is the product of the two, written as a recursive sum (`Lists.OffsetIsProduct`).
- Tensor maps are keyed by arbitrary strings; the schema's names are the formatted paths.
- Machine words appear where the program stores them: 32-bit generator words, 64-bit seeds and record
  fields; `usize` is 64 bits wide.

## Model

| member | source | states |
|---|---|---|
| `BlockGenerator.RewriteBlock` | rust/rwkv-srs-cpu/src/id_encoding.rs:163-180 | the in-place update, whose later loop and last word mix old and already rewritten cells, leaves exactly the next 624 words of the recurrence applied to the old block |
| `BlockGenerator.RewriteCell` | rust/rwkv-srs-cpu/src/id_encoding.rs:163-180 | one cell of the update, whether its neighbours are old or already rewritten, extends the rewritten prefix by the right word |
| `BlockGenerator.SeedWords` | rust/rwkv-srs-cpu/src/id_encoding.rs:47-61 | seeding fills the array with words 0 to 623 of the sequence of that seed |
| `BlockGenerator.NextBlockIsWords` | rust/rwkv-srs-cpu/src/id_encoding.rs:163-180 | updating a block that holds words 624b and on gives the block of words 624(b+1) and on, for every b |
| `BlockGenerator.ReachableShape` | rust/rwkv-srs-cpu/src/id_encoding.rs:143-180 | after any number of draws from any seed the cursor is (1, 0) on the seed block, or left + next = 625 with 1 <= left <= 624 on the block that contains the last drawn word |
| `BlockGenerator.DrawIsWord` | rust/rwkv-srs-cpu/src/id_encoding.rs:143-155 | for every seed and n, draw number n is the tempered word 624 + n of the infinite sequence |
| `BlockGenerator.EncodingIsWords` | rust/rwkv-srs-cpu/src/id_encoding.rs:157-161 | value i of an encoding drawn after n draws comes from word 624 + n + i: encodings read the sequence without gap or overlap |
| `BlockGenerator.EncodingAdvances` | rust/rwkv-srs-cpu/src/id_encoding.rs:157-161 | drawing an encoding of length d is the same as d draws, for the generator left behind |
| `BlockGenerator.DrawsForeverIffSafe` | rust/rwkv-srs-cpu/src/id_encoding.rs:143-155 | a generator can be drawn from for ever without an underflow or an index out of range if and only if left = 1, or left >= 1 and left + next <= 625 |
| `BlockGenerator.UnsafeFails` | rust/rwkv-srs-cpu/src/id_encoding.rs:143-155 | any other cursor fails within left + 1 draws |
| `BlockGenerator.BlockRng.RandomU32` | rust/rwkv-srs-cpu/src/id_encoding.rs:143-155 | the object after a draw and the word drawn are those of the value-level draw, which the lemmas above characterise |
| `BlockGenerator.BlockRng.IdEncoding` | rust/rwkv-srs-cpu/src/id_encoding.rs:157-161 | same for a whole encoding |
| `BlockGenerator.BlockRng.NextState` | rust/rwkv-srs-cpu/src/id_encoding.rs:163-180 | the block is replaced by the next one, left is 624 and next is 0, the seed stays |
| `Mersenne.StepIsIso` | rust/rwkv-srs-cpu/src/id_encoding.rs:182-189 | the program's twist, which tests the low bit of the second word only, equals the transition of the standard, for all words |
| `Mersenne.WordIsIso` | rust/rwkv-srs-cpu/src/id_encoding.rs:47-61 | every word of the sequence is that of `mersenne_twister_engine` (section 26.5.3.2 of ISO C++14), whose seeding (a product in wide words reduced modulo 2^32, the index reduced modulo 624), first word, transition and indices are written out without anything of the program's |
| `Mersenne.DefaultSeedWords` | rust/rwkv-srs-cpu/src/id_encoding.rs:47-61 | words 1, 2 and 3 of seed 5489 are 1301868182, 2938499221 and 2950281878 |
| `Mersenne.DrawIsIso` | rust/rwkv-srs-cpu/src/id_encoding.rs:143-155 | for every seed, draw number n is the standard's tempering of its word 624 + n |
| `Mersenne.EncodingIsIso` | rust/rwkv-srs-cpu/src/id_encoding.rs:157-161 | value i of an encoding drawn after n draws is the last two binary digits of the standard's output for word 624 + n + i, less 1.5 |
| `Mersenne.WordsExact` | rust/rwkv-srs-cpu/src/id_encoding.rs:63-141 | 32-bit words and the numbers stored for them convert to each other without loss, both ways |
| `Mersenne.StoredStateIsTheSame` | rust/rwkv-srs-cpu/src/id_encoding.rs:63-141 | after any number of draws from any seed, storing and restoring gives the same generator, hence the same future stream |
| `RngState.ParseSerialised` | rust/rwkv-srs-cpu/src/id_encoding.rs:63-141 | parsing a serialised generator gives it back |
| `RngState.SerialiseParsed` | rust/rwkv-srs-cpu/src/id_encoding.rs:63-141 | serialising whatever the parser accepted reproduces the input bytes, so every accepted state has exactly one encoding |
| `RngState.ReachableRoundTrip` | rust/rwkv-srs-cpu/src/id_encoding.rs:63-141 | the round trip holds for every reachable generator, and what comes back is safe to draw from |
| `RngState.ParserAcceptsUnsafeCursor` | rust/rwkv-srs-cpu/src/id_encoding.rs:63-121 | a concrete accepted state from which the first draw fails |
| `RngState.FromTorchRngState` | rust/rwkv-srs-cpu/src/id_encoding.rs:63-121 | the parsing loop, its checks in their order, returns the first violated check or the decoded generator |
| `RngState.ToTorchRngStateBytes` | rust/rwkv-srs-cpu/src/id_encoding.rs:123-141 | the filling loop writes the whole serialised state |
| `FeatureEquivalence.HistoriesAgree` | rust/rwkv-srs-cpu/src/state.rs:233-408 | for every history from every state with well-dimensioned encodings, the fused path (with or without query rows) ends in the state of the prepared-row path: encodings, generator, keys and counters |
| `FeatureEquivalence.HistoryAnswersAgree` | rust/rwkv-srs-cpu/src/state.rs:233-408 | and answers each review of the history with the reference rows, the identities and the same error; the process-only variant answers the second half of each pair |
| `FeatureEquivalence.CompleteStepsAgree` | rust/rwkv-srs-cpu/src/state.rs:233-408 | for a complete review on any valid state, both paths agree if and only if the stored encodings and day values make up the 68 values of a row; runs from a fresh seed always do |
| `FeatureEquivalence.IncompleteStepsAgree` | rust/rwkv-srs-cpu/src/state.rs:233-258 | a review without rating, duration or state is refused by both paths with the same error and without any change |
| `FeatureEquivalence.StepsAgree` | rust/rwkv-srs-cpu/src/state.rs:233-408 | one review, complete or not, on every well-dimensioned state |
| `FeatureEquivalence.ReferenceStepIs` | rust/rwkv-srs-cpu/src/state.rs:128-231 | predict row, predict vector, process row, process vector, record keys, record counters: the whole prepared-row sequence comes to the fused rows and the processed state |
| `FeatureEquivalence.FusedStepIs` | rust/rwkv-srs-cpu/src/state.rs:233-408 | the fused path answers with the directly computed rows exactly when they have the length of a row, else with an error |
| `FeatureEquivalence.PredictRowCards` | rust/rwkv-srs-cpu/src/state.rs:128-138 | the 24 card features read through the string-keyed prediction row are the directly computed query values |
| `FeatureEquivalence.ProcessRowCards` | rust/rwkv-srs-cpu/src/state.rs:140-169 | the 24 card features read through the processing row are the query values with duration, one-hot rating, state and query flag overwritten |
| `FeatureEquivalence.PredictionObserves` | rust/rwkv-srs-cpu/src/state.rs:219-231 | predicting leaves the whole state as it was, generator included, and returns the query features, for any valid state |
| `FeatureEquivalence.ObservingDrawsTheSame` | rust/rwkv-srs-cpu/src/state.rs:181-213 | without storing, the row path draws the very encodings that storing would store and leaves the generator in the same place |
| `FeatureEquivalence.StoringFills` | rust/rwkv-srs-cpu/src/state.rs:181-213 | with storing, exactly the missing encodings are added, and the values returned are the stored ones |
| `FeatureEquivalence.ProcessingFills` | rust/rwkv-srs-cpu/src/state.rs:140-217 | building the processing vector fills exactly the missing encodings and returns the process features |
| `FeatureEquivalence.NoRestoreNeeded` | rust/rwkv-srs-cpu/src/state.rs:410-427 | the snapshot is asked for exactly when some submodule has no encoding for the row's id |
| `FeatureEquivalence.PreparedRowsHaveIds` | rust/rwkv-srs-cpu/src/state.rs:99-105 | both prepared rows carry the four normalised ids, however later columns overwrite earlier ones |
| `FeatureEquivalence.CanBatchPredictIs` | rust/rwkv-srs-cpu/src/state.rs:584-613 | batching is allowed exactly when all four identities are encoded and all four have recurrent state |
| `FeatureEquivalence.DirectPredictionAgrees` | rust/rwkv-srs-cpu/src/state.rs:461-613 | direct prediction answers if and only if batching is allowed, and then with the prepared-row prediction and the normalised ids |
| `FeatureRows.ReadersMean` | rust/rwkv-srs-cpu/src/state.rs:42-58 | reading a row of any origin: a number unless the column is missing or a truth value, an integer exactly for a whole number, and which error otherwise |
| `FeatureRows.RestoreMeans` | rust/rwkv-srs-cpu/src/state.rs:410-427 | for a row of any origin the first of card, note, deck and preset without an encoding decides: an unreadable id is the error, another one needs draws |
| `FeatureRows.BatchPredictMeans` | rust/rwkv-srs-cpu/src/state.rs:584-613 | for a row of any origin batching is allowed exactly when all four ids are read, encoded and recurrent, and fails exactly for an unreadable id behind encoded ones |
| `FeatureRows.PreparedRowsHold` | rust/rwkv-srs-cpu/src/state.rs:686-833 | both prepared rows carry the ids, elapsed times, sums with them, relative day and first day of the review |
| `FeatureRows.PreparedRowsSkip` | rust/rwkv-srs-cpu/src/state.rs:128-169 | a prediction row is skipped, a review row is not; the first of rating, duration and state that is missing is the error |
| `FeatureMeaning.AnswerColumns` | rust/rwkv-srs-cpu/src/state.rs:140-169 | in the answer to a review with rating 1 to 4 exactly the column 8 + rating is 1 among 9 to 12, for another rating none; scaled duration and state stand at 8 and 22, and 23 is 0 |
| `FeatureMeaning.QueryColumns` | rust/rwkv-srs-cpu/src/state.rs:128-138 | in the query half those columns are 0 and 23 is 1 |
| `FeatureMeaning.ReviewColumns` | rust/rwkv-srs-cpu/src/state.rs:233-408 | columns 0 to 7, 13 to 15 and 16 to 21 of both halves, from the maps and counters of the state: elapsed times with their sums, which ids are missing, the days and the counters with the coming review |
| `FeatureMeaning.AnswerIds` | rust/rwkv-srs-cpu/src/state.rs:99-105 | the ids answered: the given ones, the placeholder plus the card id for a missing note, the placeholder for a missing deck or preset |
| `FeatureMeaning.AnswerIdentities` | rust/rwkv-srs-cpu/src/state.rs:181-217 | columns 24 to 63 are the card, note, deck and preset encodings that the state stores from then on, and 64 to 91 the encoding of the relative day and the card's first day |
| `FeatureMeaning.AnswerDraws` | rust/rwkv-srs-cpu/src/state.rs:181-213 | missing encodings are drawn in the order card (12), note (12), deck (8), preset (8) from the generator, which is left behind the last draw |
| `FeatureHistory.CountersOfHistory` | rust/rwkv-srs-cpu/src/state.rs:643-684 | after any run from a fresh seed every counter equals a plain function of the history: number of reviews, distinct cards, last index, first day, elapsed sums, length of the maximal equal-day suffix and the first reviews in it |
| `FeatureHistory.ProcessedCounts` | rust/rwkv-srs-cpu/src/state.rs:643-684 | one processed review moves all counters from those of a history to those of the extended history |
| `FeatureHistory.RecordedCounts` | rust/rwkv-srs-cpu/src/state.rs:643-684 | same for the bare counter update |
| `FeatureHistory.DifferencesCountHistory` | rust/rwkv-srs-cpu/src/state.rs:686-740 | the clamped differences are the exact numbers of reviews, and of first reviews, since the card's last review: the clamps at 0 never change a value |
| `FeatureHistory.LastReviewsDistinct` | rust/rwkv-srs-cpu/src/state.rs:643-684 | last indices are below the review count and no two cards share one |
| `FeatureHistory.RowCountersIncludeReview` | rust/rwkv-srs-cpu/src/state.rs:686-833 | the day counters of a row describe the day with the coming review included |
| `FeatureHistory.RelativeDayIs` | rust/rwkv-srs-cpu/src/state.rs:643-684 | the relative day is 0 for the first review and the given day offset for every later one: the first offset is recorded after it was made relative |
| `FeatureHistory.GivenDayCounters` | rust/rwkv-srs-cpu/src/state.rs:643-684 | on the day offsets as given: the reviews counted for today are the maximal suffix of equal days if and only if the history is one review, or that suffix leaves out the first two, or the first review's day is the last one's exactly when the last one's is 0; the first reviews in it likewise |
| `FeatureHistory.TodayStartShifted` | rust/rwkv-srs-cpu/src/state.rs:643-684 | moving the first review to day 0 leaves the equal-day suffix alone under exactly that condition |
| `FeatureHistory.FirstDayCountsTwice` | rust/rwkv-srs-cpu/src/state.rs:643-684 | two reviews given for day 10 at the start of any history count as two days |
| `FeatureState.FeatureState.WithTorchSeed` | rust/rwkv-srs-cpu/src/state.rs:107-126 | a fresh state |
| `FeatureState.FeatureState.AppendEncodings` | rust/rwkv-srs-cpu/src/state.rs:181-213 | the loop over submodules, stopped by a missing id with the draws made so far, computes the row path's encodings and new state |
| `FeatureState.FeatureState.FeatureVector` | rust/rwkv-srs-cpu/src/state.rs:171-217 | the vector built in place and the state after it |
| `FeatureState.FeatureState.SkipNeedsRngRestore` | rust/rwkv-srs-cpu/src/state.rs:410-427 | the early-exit loop decides whether an encoding is missing |
| `FeatureState.FeatureState.PredictFeatureVector` | rust/rwkv-srs-cpu/src/state.rs:219-231 | draw from the live generator, then put the saved copy back: the observable effect is that of the observing function |
| `FeatureState.FeatureState.RecordProcessedValues` | rust/rwkv-srs-cpu/src/state.rs:643-684 | the field-by-field update is the counter update whose history meaning is proved above |
| `FeatureState.FeatureState.RecordProcessedRow` | rust/rwkv-srs-cpu/src/state.rs:625-633 | same from a row; a row without a column changes nothing |
| `FeatureState.FeatureState.RecordRecurrentStateUpdate` | rust/rwkv-srs-cpu/src/state.rs:615-623 | the four keys of the row are recorded, or none when one is missing |
| `FeatureState.FeatureState.RecordRecurrentIds` | rust/rwkv-srs-cpu/src/state.rs:635-641 | the four keys are added and nothing else changes |
| `FeatureState.FeatureState.RowCounters` | rust/rwkv-srs-cpu/src/state.rs:686-740 | the four differences read off the maps |
| `FeatureState.FeatureState.AppendProcessFeatureRows` | rust/rwkv-srs-cpu/src/state.rs:233-408 | the fused path on the object: rows, length check, then records; its result and state are those compared with the reference above and read column by column in `FeatureMeaning` |
| `FeatureState.FeatureState.DirectPredictFeatures` | rust/rwkv-srs-cpu/src/state.rs:461-582 | direct prediction on the object, which changes nothing |
| `LiveInvariant.ReachableInv` | src/rwkv_srs/live.py:421-856 | whatever operations run from the start of a session, each live card is found at its slot, slots are distinct despite stale ones, and elapsed times are query time minus the fixed anchor, or both -1 |
| `LiveInvariant.StepKeepsInv` | src/rwkv_srs/live.py:500-856 | every operation, successful or not, keeps that invariant |
| `LiveInvariant.TransportInPlace` | src/rwkv_srs/live.py:544-548 | the transported rows are the chosen membership, sorted by slot, each standing where its slot says |
| `LiveInvariant.WriteBackAt` | src/rwkv_srs/live.py:556-565 | each transported row receives its own prediction |
| `LiveInvariant.WriteBackElsewhere` | src/rwkv_srs/live.py:556-565 | and every other slot keeps its candidate |
| `LiveInvariant.NoDuplicateIsDistinct` | src/rwkv_srs/live.py:274-286 | the seed check rejects exactly the lists with a repeated card |
| `LiveRanking.BeforeIsStrict` | src/rwkv_srs/live.py:1032-1064 | the sort key is a strict total order in all four modes |
| `LiveRanking.RankedIsSorted` | src/rwkv_srs/live.py:1032-1064 | the ranking is a sorted permutation of the live candidates |
| `LiveRanking.RankingIgnoresInsertionOrder` | src/rwkv_srs/live.py:1032-1064 | it is the same whatever the order in which the index lists them |
| `LiveRanking.SelectionIsFirstOfSelectable` | src/rwkv_srs/live.py:1066-1100 | the selection is the first k of the one ascending list of the active, not excluded, eligible candidates, and the eligible count is its length |
| `LiveMeaning.EligibleMeansDue` | src/rwkv_srs/live.py:1102-1118 | eligible means active or excluded, finite, below 1 and negative or below the raised target, which is the intraday one within a day of the last review |
| `LiveMeaning.BeforeMeansPrecedes` | src/rwkv_srs/live.py:1032-1064 | the sort key compares eligible before not, finite before not, then the mode, then tie-breaker, then card id |
| `LiveMeaning.RankingOrder` | src/rwkv_srs/live.py:1032-1064 | in the ranking, lower predictions come first when ascending, higher ones when descending, lower keys when random, lower ratios of prediction to target in overdueness order, each behind eligibility and finiteness and before tie-breaker and card id |
| `LiveMeaning.SelectionMeans` | src/rwkv_srs/live.py:1066-1100 | the selected cards are live, counted and eligible, each with its prediction and target, in that order, and no card left out precedes one that is selected |
| `LiveMeaning.CountsMean` | src/rwkv_srs/live.py:1066-1100 | generation, refreshed count, and the numbers of active and of eligible cards; the selection has the requested length or the eligible number |
| `LiveRanking.EligibilityIsMonotone` | src/rwkv_srs/live.py:1102-1118 | raising the extra never makes a candidate ineligible, for any monotone rounding of addition |
| `LiveRanking.BoundaryIsLeastIff` | src/rwkv_srs/live.py:1120-1136 | for any monotone rounding a candidate is eligible at the boundary found, and the boundary is the least such extra if and only if the rounded start of the search was not already past it |
| `LiveRanking.RoundedStartOvershoots` | src/rwkv_srs/live.py:1120-1136 | a monotone rounding and an ordinary prediction for which it is past it: one extra less than the boundary is eligible |
| `LiveRanking.ExactBoundary` | src/rwkv_srs/live.py:1120-1136 | on a grid the boundary is the exact threshold if and only if the prediction is not negative |
| `LiveRanking.NegativePredictionOvershoots` | src/rwkv_srs/live.py:1120-1136 | a negative prediction on a grid that is eligible below its boundary |
| `LiveRanking.NextExtraUnderRounding` | src/rwkv_srs/live.py:1066-1136 | for any monotone rounding under which no candidate's search starts past its boundary, the next extra is absent exactly when no active finite prediction below 1 waits; otherwise the eligible set is constant from the current extra up to it and strictly grows at it |
| `LiveRanking.NextExtraIsExact` | src/rwkv_srs/live.py:1066-1136 | in particular on a grid with non-negative predictions |
| `LiveRefresh.MembershipIsBounded` | src/rwkv_srs/live.py:517-543 | membership has no duplicates and exactly min(limit, number of refreshable candidates) members |
| `LiveRefresh.PendingComesFirst` | src/rwkv_srs/live.py:517-543 | pending candidates come first, in slot order; all members after them are active ones |
| `LiveRefresh.OthersUntouched` | src/rwkv_srs/live.py:500-577 | stale slots, excluded candidates and cards excluded from the refresh keep every field |
| `LiveRefresh.MembersRefreshed` | src/rwkv_srs/live.py:556-565 | every member is active afterwards with its old anchor, its elapsed times at the target and its own prediction: the one at its position in the transported list |
| `LiveRefresh.RefreshSettlesPending` | src/rwkv_srs/live.py:500-577 | whatever cards are excluded from it, a refresh settles exactly the chosen pending candidates: the limit of those not excluded, or all of them |
| `LiveRefresh.PendingDecreasesSlowly` | src/rwkv_srs/live.py:500-577 | after n refreshes with any exclusions it has dropped by no more than n times the limit |
| `LiveRefresh.PendingDecreases` | src/rwkv_srs/live.py:500-577 | after n refreshes that exclude no card the number of pending candidates has dropped by exactly n times the limit, down to 0 |
| `LiveRefresh.EveryPendingIsServed` | src/rwkv_srs/live.py:500-577 | a pending candidate whose card no refresh excludes is active after n successful refreshes, with any other cards excluded from each, once n times the limit reaches the number of pending ones |
| `LiveRefresh.WaitingServesOthers` | src/rwkv_srs/live.py:500-577 | as long as it still waits, every refresh has served as many others as the limit allows |
| `LiveReconcile.ReseedRebuildsIff` | src/rwkv_srs/live.py:928-987 | seeding a kept card again at its current elapsed values rebuilds it, up to fields that are never read, if and only if the target is not before its last review |
| `LiveReconcile.IncrementalRefinesFull` | src/rwkv_srs/live.py:594-755 | incremental reconciliation installs what full reconciliation of the corresponding seed list installs (slots, anchors, predictions, statuses, ranking) if and only if the target is before no kept anchor |
| `LiveReconcile.BeforeAnchorDiffers` | src/rwkv_srs/live.py:594-755 | otherwise, where the full one succeeds at all, the two results differ in more than the ignored fields |
| `LiveReconcile.TargetBeforeReviewForgetsReview` | src/rwkv_srs/live.py:594-755 | a session of one reviewed card and a target one second and one day before the review: both reconciliations succeed, and their sessions differ |
| `LiveReconcile.TargetBeforeReviewIsRefused` | src/rwkv_srs/live.py:594-755 | an earlier target: the incremental one succeeds and the full one refuses a negative elapsed time |
| `LiveReconcile.OneCardStarts` | src/rwkv_srs/live.py:421-482 | that session is the one started from its card's seed |
| `LiveMeaning.StartMeans` | src/rwkv_srs/live.py:421-482 | a session starts exactly for one seed per card with consistent elapsed times and one prediction for each row asked for; it then holds the seeded cards in order, each anchored its elapsed times before the target and active with its own prediction |
| `LiveMeaning.StartFails` | src/rwkv_srs/live.py:421-482 | otherwise the error is the first repeated card, or the first seed with mixed or negative times, or a failed predictor, or a wrong number of predictions, in that order |
| `LiveMeaning.ReconcileMeans` | src/rwkv_srs/live.py:594-652 | full reconciliation installs the same universe at the new target under the same conditions |
| `LiveMeaning.ReconcileFails` | src/rwkv_srs/live.py:594-652 | and fails likewise |
| `LiveMeaning.ReplaceMeans` | src/rwkv_srs/live.py:827-856 | replacement at the session's own target asks for the same rows, although it derives them from the last reviews |
| `LiveMeaning.ReplaceFails` | src/rwkv_srs/live.py:827-856 | and fails likewise |
| `LiveMeaning.ReconcileMembershipMeans` | src/rwkv_srs/live.py:654-755 | incremental reconciliation holds each desired card from its seed or kept candidate, active with the prediction for the row of its own days and seconds |
| `LiveMeaning.RefreshAsks` | src/rwkv_srs/live.py:500-577 | a refresh asks for the transported cards in slot order, each with days and seconds since its own last review, and fails exactly when the predictor does or answers another number of rows; each card gets the prediction for its row |
| `LiveMeaning.UpsertMeans` | src/rwkv_srs/live.py:802-825 | upserts succeed exactly for one consistent seed per card, take each over at the session's target, pending and excluded as before, and leave every other card alone |
| `LiveSimulation.ReconciliationsAreInterchangeable` | src/rwkv_srs/live.py:594-755 | and where they agree, every later run of operations gives the same selections: the ignored fields are never read |
| `LiveSimulation.SimilarRuns` | src/rwkv_srs/live.py:500-856 | sessions equal up to those fields stay so through every run and report the same selections |
| `LiveSimulation.SimilarStep` | src/rwkv_srs/live.py:500-856 | one operation on such sessions has the same outcome or the same error |
| `LiveStatus.StepOnStatus` | src/rwkv_srs/live.py:776-825 | the four statuses are two independent bits: how each operation sets its own bit of each card and leaves the other |
| `LiveStatus.ExclusionIsRemembered` | src/rwkv_srs/live.py:776-792 | through any run of refreshes, upserts, exclusions and inclusions a card is excluded exactly as last asked |
| `LiveStatus.AnchorIsFixed` | src/rwkv_srs/live.py:500-856 | only a new seed for the card moves its anchor |
| `LiveObjects.FindBoundary` | src/rwkv_srs/live.py:1120-1136 | the search loop from a rounded start, one float at a time, ends and returns the boundary analysed above |
| `LiveObjects.ReferenceCandidate.TakePrediction` | src/rwkv_srs/live.py:556-565 | the fields a prediction updates, and those it leaves |
| `LiveObjects.TakePredictions` | src/rwkv_srs/live.py:556-565 | the objects in transport take their predictions, every other object of the session keeps its value |
| `LiveObjects.ScanRanking` | src/rwkv_srs/live.py:517-543 | the scan down the ranking takes the best ranked refreshable cards not chosen yet, up to the limit |
| `LiveObjects.BuildFromSeeds` | src/rwkv_srs/live.py:928-987 | the building loop gives fresh objects in slot order, or the error of the first bad seed |
| `LiveObjects.BuildReconciled` | src/rwkv_srs/live.py:654-755 | the reconciling loop builds a new object for every id, from its seed or from the kept candidate, or reports the first id with neither |
| `LiveSession.LivePredictionSession.Ordered` | src/rwkv_srs/live.py:1032-1064 | listing the index in any order and sorting gives the ranking |
| `LiveSession.LivePredictionSession.CurrentSelection` | src/rwkv_srs/live.py:579-592 | the selection of the session's value |
| `LiveSession.LivePredictionSession.ChooseMembership` | src/rwkv_srs/live.py:517-543 | the two membership loops compute the bounded membership |
| `LiveSession.LivePredictionSession.Refresh` | src/rwkv_srs/live.py:500-577 | the refresh on objects, updating candidates in place: new session value and result, or the error and no change |
| `LiveSession.LivePredictionSession.ReconcileCandidates` | src/rwkv_srs/live.py:594-652 | full reconciliation installs new objects and index only when everything succeeded |
| `LiveSession.LivePredictionSession.ReconcileMembership` | src/rwkv_srs/live.py:654-755 | incremental reconciliation, likewise |
| `LiveSession.LivePredictionSession.ReplaceCandidates` | src/rwkv_srs/live.py:827-856 | replacement of the universe, likewise |
| `LiveSession.LivePredictionSession.Start` | src/rwkv_srs/live.py:421-482 | the first prediction of all candidates, or no session |
| `LiveSession.LivePredictionSession.ExcludeCard` | src/rwkv_srs/live.py:776-783 | in place: the exclusion bit of the one card and the generation |
| `LiveSession.LivePredictionSession.IncludeCard` | src/rwkv_srs/live.py:785-792 | in place: the exclusion bit cleared and the generation |
| `LiveSession.LivePredictionSession.RemoveCandidate` | src/rwkv_srs/live.py:794-800 | only the index forgets the card; its slot stays behind |
| `LiveSession.LivePredictionSession.UpsertCandidates` | src/rwkv_srs/live.py:802-825 | every seed is checked before any is taken over; the status keeps its exclusion bit |
| `LiveSession.LivePredictionSession.SetRetentionExtra` | src/rwkv_srs/live.py:867-871 | the extra and the generation, nothing else |
| `WkvRow.AlgebraicAgreesIff` | rust/rwkv-srs-cpu/src/ops.rs:173-302 | the algebraic head equals the row recurrence if and only if no threshold skips a term that matters |
| `WkvRow.AlgebraicPathAgrees` | rust/rwkv-srs-cpu/src/ops.rs:93-110 | for every flag combination and size for which the program takes the algebraic path, the two are equal |
| `WkvRow.ThresholdSeparates` | rust/rwkv-srs-cpu/src/ops.rs:404-468 | a one-element head on which a threshold makes them differ: why the program demands that none is set |
| `WkvRow.OutRowExpanded` | rust/rwkv-srs-cpu/src/ops.rs:404-531 | a row's output as S.(w*r) - (S.kd)(dk.r) + v(k.r) |
| `WkvRow.ReuseIsHarmless` | rust/rwkv-srs-cpu/src/ops.rs:491-531 | reusing the key as the deformed key changes neither state nor output when the key is a * kd |
| `WkvRow.OutputRowScalar` | rust/rwkv-srs-cpu/src/ops.rs:491-531 | the accumulating loop computes the output of the recurrence |
| `WkvRow.OutputRowSkipScalar` | rust/rwkv-srs-cpu/src/ops.rs:471-488 | same without the deformation |
| `WkvRow.StateOutputRowScalar` | rust/rwkv-srs-cpu/src/ops.rs:724-767 | writes exactly one row of the next state in place and computes its output |
| `WkvRow.StateOutputRowSkipScalar` | rust/rwkv-srs-cpu/src/ops.rs:615-636 | same without the deformation |
| `WkvHead.OutputHead` | rust/rwkv-srs-cpu/src/ops.rs:173-251 | whichever form and kernel are chosen, the head's outputs are those of the row recurrence, and nothing else in the buffer changes |
| `WkvHead.AlgebraicOutputHead` | rust/rwkv-srs-cpu/src/ops.rs:254-302 | the scalar and lane-split algebraic loops write the algebraic form |
| `WkvHead.OutputRow` | rust/rwkv-srs-cpu/src/ops.rs:404-468 | any choice of kernel computes the same row output |
| `WkvHead.StateOutputRow` | rust/rwkv-srs-cpu/src/ops.rs:534-613 | any choice of kernel writes the same next row and output |
| `WkvHead.ReadoutsLanes` | rust/rwkv-srs-cpu/src/portable_simd.rs:575-629 | the lane-split readouts of key and deformation are the plain dot products |
| `WkvLanes.LinearDot` | rust/rwkv-srs-cpu/src/portable_simd.rs:187-199 | lane accumulators plus tail equal the plain dot product, for every lane count and length |
| `WkvLanes.LinearDotPair` | rust/rwkv-srs-cpu/src/portable_simd.rs:212-231 | both dot products of a pair |
| `WkvLanes.OutputRowLanes` | rust/rwkv-srs-cpu/src/portable_simd.rs:471-556 | the lane-split row output is the recurrence's |
| `WkvLanes.StateOutputRowLanes` | rust/rwkv-srs-cpu/src/portable_simd.rs:445-467 | the lane-split row writes the same next state as the sequential one, in place |
| `WkvTimestep.MatrixStep` | rust/rwkv-srs-cpu/src/ops.rs:534-613 | entry (i, j) of the next matrix of a cell is S_ij w_j - (S kd)_i dk_j + v_i k_j |
| `WkvTimestep.OutputIsReadout` | rust/rwkv-srs-cpu/src/ops.rs:534-613 | each output is the readout of the same row of the next matrix, S' r |
| `WkvTimestep.NextCellsAt` | rust/rwkv-srs-cpu/src/ops.rs:1487-1656 | the flat next state holds the stepped matrix of every (batch, head) cell in its own stretch |
| `WkvTimestep.OutputCellsAt` | rust/rwkv-srs-cpu/src/ops.rs:1487-1656 | the flat output holds every cell's outputs in its own stretch |
| `WkvTimestep.NextRowsAt` | rust/rwkv-srs-cpu/src/ops.rs:1487-1656 | and every row of a matrix in its own stretch |
| `WkvTimestep.ZeroStateStep` | rust/rwkv-srs-cpu/src/ops.rs:3566-4102 | from a zero state a step only writes v k^T, whatever the flags: the shortcut branch computes this |
| `WkvBatch.StateHead` | rust/rwkv-srs-cpu/src/ops.rs:1487-1656 | one head, from a given or an absent matrix, written at its place in both buffers |
| `WkvBatch.StateStep` | rust/rwkv-srs-cpu/src/ops.rs:1487-1656 | for every batch size, head count and head size, sequential or in independent chunks taken in any order, an absent state being a zero state: outputs and next state of the matrix step in every cell, also as the formula at flat indices |
| `WkvBatch.StateChunks` | rust/rwkv-srs-cpu/src/ops.rs:1487-1656 | every chunk is complete whatever the order in which the batches are taken |
| `WkvBatch.ChunksComplete` | rust/rwkv-srs-cpu/src/ops.rs:1487-1656 | buffers equal to a target in every chunk are the target |
| `WkvFlat.StepIsFlat` | rust/rwkv-srs-cpu/src/ops.rs:1487-1656 | with c = b * heads + h the next state at (c * size + i) * size + j is the old one times w at c * size + j, less the row's sum against kd times a kd there (or k, when reused) unless the approximations skip it, plus v at c * size + i times k at c * size + j; the output at c * size + i is the next row's sum against r |
| `WkvOutputOnly.OutputStep` | rust/rwkv-srs-cpu/src/ops.rs:1659-1790 | the output-only step computes the outputs of the state-producing one |
| `TimeMixer.SingleTimestep` | rust/rwkv-srs-cpu/src/ops.rs:1487-1656 | vectors whose shapes differ, and a state that does not have the shape the vectors' demand, give their errors in that order; otherwise both buffers are those of the step, every entry and output by the formula on the tensors of those names |
| `TimeMixer.SingleTimestepOutput` | rust/rwkv-srs-cpu/src/ops.rs:1659-1790 | same for the outputs alone |
| `TimeMixer.MiddleScratch` | rust/rwkv-srs-cpu/src/ops.rs:3566-4102 | preparation followed by whichever branch (zero or explicit state, with or without next state, chunked or not) gives the step from the explicit start state, every entry and output by the formula at flat indices |
| `TimeMixer.ScratchErrorIs` | rust/rwkv-srs-cpu/src/ops.rs:3584-3630 | lengths are checked in this order: vectors against batch * heads * size, scales against batch * heads, then no values for a zero state, and a matrix per head otherwise |
| `TimeMixer.PreparedIsFlat` | rust/rwkv-srs-cpu/src/ops.rs:3566-4114 | what a step runs on: every stretch of keys and values is divided by the root of its sum of squares, or the least norm, and multiplied by its own scale; the key is a times kd; r, w and a as given |
| `TimeMixer.StartStateIs` | rust/rwkv-srs-cpu/src/ops.rs:3566-4102 | a zero state is all zeros, any other the one given |
| `TimeMixer.Prepare` | rust/rwkv-srs-cpu/src/ops.rs:3566-4102 | the normalising loops prepare every head of every batch |
| `TimeMixer.NormalizeHead` | rust/rwkv-srs-cpu/src/ops.rs:4104-4114 | one head is normalised in place and the rest of the buffer is kept |
| `TimeMixer.PreparedKeys` | rust/rwkv-srs-cpu/src/ops.rs:3566-4102 | after preparation the key is a * kd in every cell |
| `TimeMixer.PreparedReuse` | rust/rwkv-srs-cpu/src/ops.rs:3566-4102 | so on prepared inputs the reuse switch never changes an output or a state |
| `LinearProject.ProjectRow` | rust/rwkv-srs-cpu/src/portable_simd.rs:315-343 | tiles of 12, 8 and 4 and single outputs write each output index exactly once, in order, with dot(input, weight row) + bias, for all dimensions |
| `LinearProject.ProjectChunk` | rust/rwkv-srs-cpu/src/portable_simd.rs:346-379 | one tile writes exactly its outputs |
| `LinearProject.ProjectBatch` | rust/rwkv-srs-cpu/src/portable_simd.rs:264-301 | every row of a batch, also as the formula at the flat indices of input, weights and output |
| `LinearProject.ProjectedAt` | rust/rwkv-srs-cpu/src/portable_simd.rs:264-301 | output o of row r stands at r * out_dim + o and is its dot product plus bias |
| `LinearProject.ProjectedIsFlat` | rust/rwkv-srs-cpu/src/portable_simd.rs:264-301 | output o of row r is the sum over l of the input at r * in_dim + l times the weight at o * in_dim + l, plus the bias of o if there is one |
| `CurveInterval.Interval` | rust/rwkv-srs-cpu/src/ops.rs:1090-1151 | which inputs are refused, in which order; every other input gets an answer: 1 with P(1) below the target, or t with t - lo = gap / 2^32 in an interval whose earlier scan points are at or above it and whose end is not, or none when all scan points are; the probabilities compared are those of `AtIsProbability` |
| `CurveInterval.SearchInterval` | rust/rwkv-srs-cpu/src/ops.rs:1119-1150 | the scan and bisection loops give such an answer, whatever the probabilities are and wherever they are not numbers |
| `CurveInterval.Bisect` | rust/rwkv-srs-cpu/src/ops.rs:1136-1148 | 32 halvings divide the interval by 2^32; lo is never below the target, hi never at or above it, and hi is below it once it has moved: where a probability is not a number neither says more |
| `CurveInterval.AnswerIsSoundIff` | rust/rwkv-srs-cpu/src/ops.rs:1090-1151 | with non-negative weights an answer means what it says (1 with P(1) below the target, P(lo) at or above and P(t) below it, or every scan point at or above it) if and only if the raw probability at one second is at most 1 |
| `CurveInterval.SoftmaxIsSound` | rust/rwkv-srs-cpu/src/ops.rs:1090-1151 | so every answer does for non-negative weights of sum at most 1, those the model produces |
| `CurveInterval.OverweightMisleads` | rust/rwkv-srs-cpu/src/ops.rs:1090-1151 | a card of 128 weights of 1 is accepted, always answered, and always with a time whose probability is not a number |
| `CurveInterval.FirstNumberSuffices` | rust/rwkv-srs-cpu/src/ops.rs:4270-4312 | with non-negative weights the probability is a number at every time if and only if the raw one at one second is at most 1 |
| `CurveInterval.LogitIsNumberIff` | rust/rwkv-srs-cpu/src/ops.rs:4270-4312 | the logit is a number, or infinite, exactly for raw probabilities from 0 to 1 |
| `CurveInterval.WeightedDecayFalls` | rust/rwkv-srs-cpu/src/ops.rs:4270-4312 | with non-negative weights the weighted decay never grows with time and stays between 0 and the sum of the weights |
| `CurveInterval.NumbersMakeSound` | rust/rwkv-srs-cpu/src/ops.rs:1090-1151 | for any weights every answer means what it says where all probabilities are numbers |
| `CurveInterval.ScannedNumbersSuffice` | rust/rwkv-srs-cpu/src/ops.rs:1090-1151 | for any weights an answer is below the target where the probabilities at the scan points are numbers |
| `CurveInterval.CrossingIsBracketed` | rust/rwkv-srs-cpu/src/ops.rs:1090-1151 | on a non-increasing curve all times up to lo are at or above the target and all from the answer on below it |
| `CurveInterval.AnswerExistsIff` | rust/rwkv-srs-cpu/src/ops.rs:1090-1151 | on a non-increasing curve there is an answer exactly when some time is below the target |
| `CurveInterval.ProbeInside` | rust/rwkv-srs-cpu/src/ops.rs:4332-4334 | a probe in the point space lies in one interval, left < elapsed <= right, so that interpolation never divides by zero |
| `CurveInterval.PointsAscend` | rust/rwkv-srs-cpu/src/ops.rs:4314-4330 | the points are strictly ascending |
| `CurveInterval.SpacePositive` | rust/rwkv-srs-cpu/src/ops.rs:4262-4268 | all strengths are positive |
| `CurveInterval.CurveProbability` | rust/rwkv-srs-cpu/src/ops.rs:4270-4303 | times before one second count as one second; times beyond the last point are refused; the answer is the logistic of the log-odds of the squeezed weighted decay, moved by the squeezed logit of the piecewise linear curve through the points |
| `CurveInterval.AtIsProbability` | rust/rwkv-srs-cpu/src/ops.rs:4270-4312 | at every time: between two neighbouring points the curve's value lies between theirs and divides their gap as the time divides theirs, at a point it is the point's own logit; residual 0.00001 + 0.99998 of it; raw probability 0.00001 + 0.99998 of the weighted decays; sigmoid of raw log-odds plus residual, 0 and 1 at the ends, none for negative odds |
| `CurveInterval.ProbabilityIsUnique` | rust/rwkv-srs-cpu/src/ops.rs:4270-4312 | and no other probability fits that description |
| `CurveInterval.CardSpaces` | rust/rwkv-srs-cpu/src/ops.rs:4262-4334 | the strengths and points of a card, with their constants written out |
| `Payload.PackedPayloadParses` | rust/rwkv-srs-cpu/src/model/process_payload.rs:7-161 | a packed list of any length parses if and only if every float in it is finite, and then to that list |
| `Payload.ParsedPayloadPacks` | rust/rwkv-srs-cpu/src/model/process_payload.rs:7-161 | packing a parsed payload gives it back with the value word of each absent id set to zero |
| `Payload.CanonicalIsStable` | rust/rwkv-srs-cpu/src/model/process_payload.rs:7-161 | that canonical payload parses to the same rows and is its own canonical form |
| `Payload.RecordRoundTrip` | rust/rwkv-srs-cpu/src/model/process_payload.rs:48-161 | one record |
| `Payload.RecordBuffersConcat` | rust/rwkv-srs-cpu/src/model/process_payload.rs:36-46 | parsing a record buffer distributes over concatenation, success and rows alike |
| `Payload.PredictionBuffersConcat` | rust/rwkv-srs-cpu/src/model/prediction_batch.rs:97-138 | same for prediction records |
| `Payload.ParsersAreRowBlind` | rust/rwkv-srs-cpu/src/model/process_payload.rs:129-175 | the row index only ever shows in error messages |
| `Payload.PredictionPrefixes` | rust/rwkv-srs-cpu/src/model/prediction_batch.rs:97-157 | the 88-byte prefixes of 112-byte records parse to the same first eight fields |
| `PayloadBuffers.PackProcessReviewPayload` | rust/rwkv-srs-cpu/src/model/process_payload.rs:92-140 | the appending loop builds the payload |
| `PayloadBuffers.ParseProcessReviewPayload` | rust/rwkv-srs-cpu/src/model/process_payload.rs:7-34 | magic, version, length and count checks in order, then the records |
| `PayloadBuffers.ParseProcessReviewRecordBuffer` | rust/rwkv-srs-cpu/src/model/process_payload.rs:36-90 | the moving cursor reads every record, or stops at the first bad field |
| `PayloadBuffers.ReadRecord` | rust/rwkv-srs-cpu/src/model/process_payload.rs:48-90 | one record at a cursor |
| `PayloadBuffers.ParsePredictionRecordBuffer` | rust/rwkv-srs-cpu/src/model/prediction_batch.rs:97-138 | same for prediction records |
| `PayloadLayout.PayloadMeans` | rust/rwkv-srs-cpu/src/model/process_payload.rs:7-90 | a payload is accepted if and only if it starts with RWSRSP01, its length is 16 + 112 times the count at byte 8, and every record has flags 0 or 1 and finite floats (exponent bits not all set); field k of record i then stands at byte 16 + 112 i + 8 k, little-endian |
| `PayloadLayout.RecordBufferMeans` | rust/rwkv-srs-cpu/src/model/process_payload.rs:36-90 | same for a buffer of records without a header |
| `PayloadLayout.PredictionMeans` | rust/rwkv-srs-cpu/src/model/prediction_batch.rs:97-157 | same for one prediction record of 88 bytes, which has no answer |
| `Materialize.NativeRnn.MaterializeFlatCpuState` | rust/rwkv-srs-cpu/src/model.rs:186-245 | succeeds if and only if no identity is stored twice and everything converts, and then every flat store is empty; success or failure, the logical state is unchanged and disjoint stores stay disjoint; cards, notes, decks, presets and the global state have their turn in this order, each only when those before it succeeded, with the outcome of one store below |
| `Materialize.MaterializeMap` | rust/rwkv-srs-cpu/src/model.rs:186-245 | same for one pair of stores: the smallest shared identity stops it before anything moves; otherwise exactly the identities with a smaller storage number than the first that does not convert (or the same number and a smaller identity) stand converted in the canonical store, the others stay, and that one is the error |
| `Materialize.MovesConserve` | rust/rwkv-srs-cpu/src/model.rs:186-245 | the moves, wherever they stop, conserve the union of the two views |
| `Materialize.MovesUpToFailure` | rust/rwkv-srs-cpu/src/model.rs:186-245 | exactly the identities before the first that does not convert are moved |
| `Materialize.MovesAllIff` | rust/rwkv-srs-cpu/src/model.rs:186-245 | all are moved if and only if all convert |
| `Materialize.NativeRnn.MaterializeGlobal` | rust/rwkv-srs-cpu/src/model.rs:186-245 | the global state, likewise: a canonical one in its way is an error before its conversion is |
| `Materialize.NativeRnn.StoreReviewStates` | rust/rwkv-srs-cpu/src/model.rs:454-488 | replaces exactly the four named identities and the global state and keeps the stores disjoint; an unconvertible output replaces nothing |
| `Materialize.StoringReplacesOne` | rust/rwkv-srs-cpu/src/model.rs:454-488 | one store changes the meaning of one identity |
| `ModelSchema.SchemaDistinct` | rust/rwkv-srs-cpu/src/weights.rs:169-402 | for every list of module configurations the generated tensor paths are pairwise distinct |
| `ModelSchema.NamesDistinct` | rust/rwkv-srs-cpu/src/weights.rs:169-402 | and so are the formatted names: 24 + 30 times the layers of them |
| `SchemaTable.BlockStands` | rust/rwkv-srs-cpu/src/weights.rs:169-358 | tensor i of layer l of module m is entry 6 + 30 (layers before) + i of the schema, with the name and shape of row i of a literal table; a linear layer's shape is outputs by inputs |
| `SchemaTable.FrontStands` | rust/rwkv-srs-cpu/src/weights.rs:169-209 | the first six tensors, by name and shape |
| `SchemaTable.TailStands` | rust/rwkv-srs-cpu/src/weights.rs:169-209 | the last eighteen, by name and shape |
| `SchemaTable.DecimalReadsBack` | rust/rwkv-srs-cpu/src/weights.rs:304-358 | numbers in names are decimal without leading zeros |
| `SchemaTable.DottedSplits` | rust/rwkv-srs-cpu/src/weights.rs:304-402 | parts of a name are joined by single dots |
| `TensorNames.RenderIsInjective` | rust/rwkv-srs-cpu/src/weights.rs:304-402 | formatting and joining with dots never makes two paths the same name |
| `WeightSpecs.ExpectedWeightSpecs` | rust/rwkv-srs-cpu/src/weights.rs:169-209 | the table has exactly the schema's rows with their shapes and dtype, 24 + 30 times the total number of layers of them |
| `WeightSpecs.TableSize` | rust/rwkv-srs-cpu/src/weights.rs:207-208 | no insertion overwrites another: as many rows as entries |
| `WeightSpecs.TableAt` | rust/rwkv-srs-cpu/src/weights.rs:169-402 | each entry is found under its name with its own shape |
| `WeightSpecs.SpecTable.AddRwkvBlock` | rust/rwkv-srs-cpu/src/weights.rs:304-358 | the helper inserts exactly the 30 entries of a layer and keeps the rest |
| `WeightSpecs.SpecTable.AddModule` | rust/rwkv-srs-cpu/src/weights.rs:169-209 | the loop over layers |
| `WeightSpecs.ValidateLoadedMeta` | rust/rwkv-srs-cpu/src/weights.rs:424-463 | for any loaded map, keyed by strings: each list of the report, and ok if and only if the loaded names, shapes and dtypes are the expected ones |
| `WeightSpecs.ReleasedModel` | rust/rwkv-srs-cpu/src/weights.rs:19-45 | the five released modules have 504 tensors and the expected parameter count |
| `ModelLoading.FromTensorMap` | rust/rwkv-srs-cpu/src/model_weights.rs:40-71 | for any map from strings to tensors the constructor succeeds if and only if the map's keys are exactly the schema's formatted names; the model then holds every tensor under its own name, counted 24 + 30 times the layers; the error names a schema tensor that is missing, or all foreign names that are left over |
| `ModelLoading.FromLoadedWeights` | rust/rwkv-srs-cpu/src/model_weights.rs:27-38 | the expected table holds the schema's names, shapes and dtype; a model is built if and only if the loaded names, shapes and dtypes are those: once the report is ok the constructor cannot fail |
| `ModelLoading.TakenIsSchema` | rust/rwkv-srs-cpu/src/model_weights.rs:40-343 | the constructors consume exactly the names the schema adds, in the same order |
| `ModelLoading.TakingDistinct` | rust/rwkv-srs-cpu/src/model_weights.rs:447-504 | consuming entries of distinct names succeeds if and only if the map has them all, and leaves exactly the others; else it stops at a missing one |
| `ModelLoading.ModelCounted` | rust/rwkv-srs-cpu/src/model_weights.rs:73-92 | the structural sums count every tensor and block |
| `ModelWeights.TensorConsumer.Take` | rust/rwkv-srs-cpu/src/model_weights.rs:447-504 | takes the tensor out of the map or reports its name |
| `ModelWeights.TensorConsumer.TakeTime` | rust/rwkv-srs-cpu/src/model_weights.rs:218-252 | the consumption of a time mixer, stopping at the first missing tensor |
| `ModelWeights.TensorConsumer.TakeModules` | rust/rwkv-srs-cpu/src/model_weights.rs:132-152 | the pushing loops fill each layer of each module from its own names |
| `ModelWeights.TensorConsumer.TakeModel` | rust/rwkv-srs-cpu/src/model_weights.rs:40-71 | the whole model, or the first missing name |
| `TensorIo.ListRoundTrip4` | rust/rwkv-srs-cpu/src/tensor_io.rs:61-166 | flattening a rectangular 4-D list and cutting it again is the identity |
| `TensorIo.ListRoundTrip5` | rust/rwkv-srs-cpu/src/tensor_io.rs:97-190 | same in five dimensions |
| `TensorIo.FlatRoundTrip4` | rust/rwkv-srs-cpu/src/tensor_io.rs:61-166 | cutting a flat tensor gives a rectangular list that flattens to it |
| `TensorIo.FlatRoundTrip5` | rust/rwkv-srs-cpu/src/tensor_io.rs:97-190 | same in five dimensions |
| `TensorIo.TensorFrom4D` | rust/rwkv-srs-cpu/src/tensor_io.rs:61-95 | accepts exactly the rectangular lists with no empty dimension, and loses no value |
| `TensorIo.TensorFrom5D` | rust/rwkv-srs-cpu/src/tensor_io.rs:97-146 | same in five dimensions |
| `TensorIo.TensorToVec4` | rust/rwkv-srs-cpu/src/tensor_io.rs:148-166 | the nested pushing loops with a running offset cut the flat tensor |
| `TensorIo.TensorToVec5` | rust/rwkv-srs-cpu/src/tensor_io.rs:168-190 | same in five dimensions |

## Left out

- IEEE rounding of the kernels, NaN propagation through them, and the values of `exp`, `ln`, `sin` and `sqrt`: sums and products are exact; the only NaN kept is a curve probability or a prediction that is not a number.
- FeatureState.FeatureState.RecordProcessedValues: counters do not wrap at 64 bits, and ids of absent notes, decks and presets are computed without the overflow a card id near the 64-bit maximum would cause.
- FeatureHistory.CountersOfHistory: starts from a fresh seed; a restored snapshot may carry a card count larger than its card set, for which the claim is false.
- BlockGenerator.DrawsForeverIffSafe: an underflowing `left` is a failure, as in a build with overflow checks; a release build wraps it instead.
- FeatureSpec.FeatureVector: rows are keyed by an enumeration of the column names, not by strings.
- FeatureRows.ReadersMean: numbers are reals, so a NaN or an infinity in a row, which the program reads as a float and refuses as an integer, has no counterpart.
- `process_answer`, undo and mode setting of the feature state, and its Python adapters: they only delegate.
- LiveSpec.Refresh: the predictor is a deterministic function of the rows that may fail as a whole; arguments arrive already checked for type and finiteness, and `batch_size` and thread counts do not appear.
- LiveSpec.Candidate: the last review's timestamp and day are one optional anchor; `close`, snapshots of candidates and allocation reports are not modelled.
- LiveRanking.NextExtraUnderRounding: where a candidate's search does start past its boundary the next extra may skip eligible ones, as RoundedStartOvershoots shows; which ones is not stated.
- WkvBatch.StateStep: batches that run in parallel are chunks taken in any order, one at a time; there is no memory model. Buffers for `out_sum` and `out_variance`, profiling counters and pooled scratch memory carry no result and are left out.
- WkvLanes.LinearDot: one loop for every lane count stands for the AVX2 and portable kernels.
- TimeMixer.MiddleScratch: the eight loops the program repeats for its flag combinations are one loop with the flags as parameters, the preparation runs before them rather than interleaved, and with more than one batch head count and size must be positive, as the chunking library demands.
- TimeMixer.SingleTimestep: the same demand on head count and size with more than one batch; SingleTimestepOutput likewise.
- CurveInterval.Interval: inputs are reals, so the checks for non-finite logits, weights and retention have no counterpart.
- CurveInterval.AnswerIsSoundIff: with negative weights a probability may be a number at one second and none later; for them NumbersMakeSound and ScannedNumbersSuffice give the two sufficient conditions.
- Payload.PackedPayloadParses: lengths that do not fit 64 bits are excluded, as no such list fits memory.
- Prediction batches as slices over a shared row array: views without mutation.
- Materialize.NativeRnn.StoreReviewStates: device synchronisation and the 32-bit state cache are not modelled; the conversion of the review outputs succeeds or fails as a whole, before anything is stored.
- WeightSpecs.ValidateLoadedMeta: the four lists of the report are sets; their order in the message is not modelled.
- ModelSchema.SchemaDistinct: a layer size is computed by an integer ratio, whose denominator must not be zero, as in the program.
- TensorIo.TensorFrom4D: tensors are a list of dimensions and a list of values; creating one in the tensor library, which can only fail on a length mismatch, is not modelled.
- Undo, checkpoints, bulk processing, the GPU scan, the native live session, output heads and the review-batch hash chain are not modelled.
