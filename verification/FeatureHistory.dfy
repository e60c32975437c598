/**
 The counters as plain functions of the review history.

 `Reviewed` is one processed review: its card, its relative day and its elapsed times. The
 functions below say what each counter means; `CountersOfHistory` ties them to every run from a
 fresh state.
 */
module FeatureHistory {
  import opened Wrappers
  import opened ReviewRows
  import opened BlockGenerator
  import opened FeatureSpec
  import opened FeatureEquivalence

  datatype Reviewed = Reviewed(card: int, day: real, elapsedDays: real, elapsedSeconds: real)

  // ----- What the counters mean -----

  function Cards(h: seq<Reviewed>): set<int> {
    set k | 0 <= k < |h| :: h[k].card
  }

  /** The index of a card's last review, or -1. */
  function LastIndex(h: seq<Reviewed>, card: int): (i: int)
    ensures -1 <= i < |h|
    ensures i >= 0 ==> h[i].card == card
    ensures forall k :: i < k < |h| ==> h[k].card != card
  {
    if h == [] then -1
    else if h[|h| - 1].card == card then |h| - 1
    else LastIndex(h[..|h| - 1], card)
  }

  predicate IsFirst(h: seq<Reviewed>, k: nat)
    requires k < |h|
  {
    forall j :: 0 <= j < k ==> h[j].card != h[k].card
  }

  /** The number of first reviews of a card among positions `from .. until`. */
  function FirstReviews(h: seq<Reviewed>, from: nat, until: nat): (n: nat)
    requires from <= until <= |h|
    decreases until
  {
    if from == until then 0 else FirstReviews(h, from, until - 1) + (if IsFirst(h, until - 1) then 1 else 0)
  }

  /** The start of the maximal suffix of reviews on the last review's day. */
  function TodayStart(h: seq<Reviewed>): (st: nat)
    requires h != []
    ensures st < |h|
    ensures forall k :: st <= k < |h| ==> h[k].day == h[|h| - 1].day
    ensures st > 0 ==> h[st - 1].day != h[|h| - 1].day
  {
    var last := |h| - 1;
    if last == 0 || h[last - 1].day != h[last].day then last else TodayStart(h[..last])
  }

  function FirstDayOf(h: seq<Reviewed>, card: int): real
    requires card in Cards(h)
  {
    if h[0].card == card then h[0].day else FirstDayOf(h[1..], card)
  }

  function DaysOf(h: seq<Reviewed>, card: int): real {
    if h == [] then 0.0
    else DaysOf(h[..|h| - 1], card) + (if h[|h| - 1].card == card then h[|h| - 1].elapsedDays else 0.0)
  }

  function SecondsOf(h: seq<Reviewed>, card: int): real {
    if h == [] then 0.0
    else SecondsOf(h[..|h| - 1], card) + (if h[|h| - 1].card == card then h[|h| - 1].elapsedSeconds else 0.0)
  }

  ghost predicate TotalCounts<W>(s: Features<W>, h: seq<Reviewed>) {
    && s.i == |h|
    && s.cardSet == Cards(h)
    && s.cardCount == FirstReviews(h, 0, |h|) == |Cards(h)|
    && s.lastI.Keys == s.lastNewCards.Keys == s.firstDay.Keys == s.daysSum.Keys == s.secondsSum.Keys == Cards(h)
  }

  ghost predicate CardCounts<W>(s: Features<W>, h: seq<Reviewed>, card: int)
    requires card in Cards(h)
  {
    && card in s.lastI && s.lastI[card] == LastIndex(h, card) >= 0
    && card in s.lastNewCards && s.lastNewCards[card] == FirstReviews(h, 0, LastIndex(h, card) + 1)
    && card in s.firstDay && s.firstDay[card] == FirstDayOf(h, card)
    && card in s.daysSum && s.daysSum[card] == DaysOf(h, card)
    && card in s.secondsSum && s.secondsSum[card] == SecondsOf(h, card)
  }

  ghost predicate TodayCounts<W>(s: Features<W>, h: seq<Reviewed>) {
    if h == [] then
      s.firstDayOffset == None && s.prevDayOffset == None && s.today == -1.0 && s.todayReviews == 0
          && s.todayNewCards == 0
    else
      && s.firstDayOffset == Some(0.0)
      && s.prevDayOffset == Some(h[|h| - 1].day)
      && s.today == h[|h| - 1].day
      && s.todayReviews + 1 == |h| - TodayStart(h)
      && s.todayNewCards == FirstReviews(h, TodayStart(h), |h|)
  }

  /** Every counter of the state, read off the history. */
  ghost predicate Counts<W>(s: Features<W>, h: seq<Reviewed>) {
    TotalCounts(s, h) && TodayCounts(s, h) && forall card :: card in Cards(h) ==> CardCounts(s, h, card)
  }

  // ----- One more review -----

  lemma CardsExtend(h: seq<Reviewed>, x: Reviewed)
    ensures Cards(h + [x]) == Cards(h) + {x.card}
  {
    var e := h + [x];
    assert e[|h|] == x && forall k :: 0 <= k < |h| ==> e[k] == h[k];
    forall card | card in Cards(h) ensures card in Cards(e) {
      var k :| 0 <= k < |h| && h[k].card == card;
      assert e[k].card == card;
    }
  }

  lemma InCards(h: seq<Reviewed>, card: int)
    ensures card in Cards(h) <==> LastIndex(h, card) >= 0
  {
    if card in Cards(h) {
      var k :| 0 <= k < |h| && h[k].card == card;
    }
    if LastIndex(h, card) >= 0 {
      assert h[LastIndex(h, card)].card in Cards(h);
    }
  }

  lemma FirstExtend(h: seq<Reviewed>, x: Reviewed, k: nat)
    requires k < |h|
    ensures IsFirst(h + [x], k) <==> IsFirst(h, k)
  {
    var e := h + [x];
    assert forall j :: 0 <= j <= k ==> e[j] == h[j];
    if IsFirst(e, k) {
      forall j | 0 <= j < k ensures h[j].card != h[k].card {
        assert e[j].card != e[k].card;
      }
    }
  }

  lemma {:induction false} FirstReviewsExtend(h: seq<Reviewed>, x: Reviewed, from: nat, until: nat)
    requires from <= until <= |h|
    ensures FirstReviews(h + [x], from, until) == FirstReviews(h, from, until)
    decreases until
  {
    if from < until {
      FirstReviewsExtend(h, x, from, until - 1);
      FirstExtend(h, x, until - 1);
    }
  }

  lemma NewIsFirst(h: seq<Reviewed>, x: Reviewed)
    ensures IsFirst(h + [x], |h|) <==> x.card !in Cards(h)
  {
    var e := h + [x];
    if x.card in Cards(h) {
      var k :| 0 <= k < |h| && h[k].card == x.card;
      assert e[k].card == e[|h|].card;
    }
  }

  lemma LastIndexExtend(h: seq<Reviewed>, x: Reviewed, card: int)
    ensures LastIndex(h + [x], card) == if card == x.card then |h| else LastIndex(h, card)
  {
    assert (h + [x])[..|h|] == h;
  }

  lemma TodayStartExtend(h: seq<Reviewed>, x: Reviewed)
    ensures TodayStart(h + [x]) == if h == [] || h[|h| - 1].day != x.day then |h| else TodayStart(h)
  {
    assert (h + [x])[..|h|] == h;
  }

  lemma {:induction false} FirstDayExtend(h: seq<Reviewed>, x: Reviewed, card: int)
    requires card in Cards(h + [x])
    ensures FirstDayOf(h + [x], card) == if card in Cards(h) then FirstDayOf(h, card) else x.day
  {
    CardsExtend(h, x);
    if h != [] && h[0].card != card {
      CardsTail(h, card);
      CardsTail(h + [x], card);
      assert (h + [x])[1..] == h[1..] + [x];
      FirstDayExtend(h[1..], x, card);
    }
  }

  lemma CardsTail(h: seq<Reviewed>, card: int)
    requires h != [] && h[0].card != card
    ensures card in Cards(h) <==> card in Cards(h[1..])
  {
    if card in Cards(h) {
      var k :| 0 <= k < |h| && h[k].card == card;
      assert h[1..][k - 1].card == card;
    }
    if card in Cards(h[1..]) {
      var k :| 0 <= k < |h| - 1 && h[1..][k].card == card;
      assert h[k + 1].card == card;
    }
  }

  lemma SumsExtend(h: seq<Reviewed>, x: Reviewed, card: int)
    ensures DaysOf(h + [x], card) == DaysOf(h, card) + (if x.card == card then x.elapsedDays else 0.0)
    ensures SecondsOf(h + [x], card) == SecondsOf(h, card) + (if x.card == card then x.elapsedSeconds else 0.0)
  {
    assert (h + [x])[..|h|] == h;
  }

  lemma {:induction false} UnseenSums(h: seq<Reviewed>, card: int)
    requires card !in Cards(h)
    ensures DaysOf(h, card) == 0.0 && SecondsOf(h, card) == 0.0
  {
    if h != [] {
      var front := h[..|h| - 1];
      assert h == front + [h[|h| - 1]];
      CardsExtend(front, h[|h| - 1]);
      UnseenSums(front, card);
    }
  }

  lemma {:induction false} FirstReviewsSplit(h: seq<Reviewed>, a: nat, b: nat, c: nat)
    requires a <= b <= c <= |h|
    ensures FirstReviews(h, a, c) == FirstReviews(h, a, b) + FirstReviews(h, b, c)
    decreases c
  {
    if b < c {
      FirstReviewsSplit(h, a, b, c - 1);
    }
  }

  function Record<W>(s: Features<W>, x: Reviewed): Features<W> {
    RecordValues(s, x.card, x.elapsedDays, x.elapsedSeconds, x.day)
  }

  lemma RecordedKeys<W>(s: Features<W>, x: Reviewed)
    requires s.lastI.Keys == s.lastNewCards.Keys == s.firstDay.Keys == s.daysSum.Keys == s.secondsSum.Keys == s.cardSet
    ensures var t := Record(s, x);
      t.lastI.Keys == t.lastNewCards.Keys == t.firstDay.Keys == t.daysSum.Keys == t.secondsSum.Keys == t.cardSet
          == s.cardSet + {x.card}
  {
    var t := Record(s, x);
    assert t.cardSet == s.cardSet + {x.card};
    assert t.lastI.Keys == t.cardSet;
    assert t.lastNewCards.Keys == t.cardSet;
    assert t.firstDay.Keys == t.cardSet;
    assert t.daysSum.Keys == t.cardSet;
    assert t.secondsSum.Keys == t.cardSet;
  }

  lemma FirstReviewsSnoc(h: seq<Reviewed>, x: Reviewed)
    ensures FirstReviews(h + [x], 0, |h| + 1) == FirstReviews(h, 0, |h|) + (if x.card !in Cards(h) then 1 else 0)
  {
    FirstReviewsExtend(h, x, 0, |h|);
    NewIsFirst(h, x);
  }

  lemma RecordedTotals<W>(s: Features<W>, h: seq<Reviewed>, x: Reviewed)
    requires TotalCounts(s, h)
    ensures TotalCounts(Record(s, x), h + [x])
  {
    RecordedKeys(s, x);
    CardsExtend(h, x);
    FirstReviewsSnoc(h, x);
  }

  lemma RecordedOther<W>(s: Features<W>, h: seq<Reviewed>, x: Reviewed, card: int)
    requires card in Cards(h) && card != x.card && CardCounts(s, h, card)
    ensures card in Cards(h + [x]) && CardCounts(Record(s, x), h + [x], card)
  {
    CardsExtend(h, x);
    LastIndexExtend(h, x, card);
    FirstDayExtend(h, x, card);
    SumsExtend(h, x, card);
    FirstReviewsExtend(h, x, 0, LastIndex(h, card) + 1);
  }

  lemma RecordedSelfSums<W>(s: Features<W>, h: seq<Reviewed>, x: Reviewed)
    requires if x.card in Cards(h)
      then x.card in s.daysSum && s.daysSum[x.card] == DaysOf(h, x.card)
        && x.card in s.secondsSum && s.secondsSum[x.card] == SecondsOf(h, x.card)
      else x.card !in s.daysSum && x.card !in s.secondsSum
    ensures Record(s, x).daysSum[x.card] == DaysOf(h + [x], x.card)
    ensures Record(s, x).secondsSum[x.card] == SecondsOf(h + [x], x.card)
  {
    SumsExtend(h, x, x.card);
    if x.card !in Cards(h) {
      UnseenSums(h, x.card);
    }
  }

  lemma RecordedSelfFirstDay<W>(s: Features<W>, h: seq<Reviewed>, x: Reviewed)
    requires s.cardSet == Cards(h) && s.firstDayOffset.GetOr(x.day) == 0.0
    requires x.card in Cards(h) ==> x.card in s.firstDay && s.firstDay[x.card] == FirstDayOf(h, x.card)
    ensures x.card in Cards(h + [x]) && x.card in Record(s, x).firstDay
    ensures Record(s, x).firstDay[x.card] == FirstDayOf(h + [x], x.card)
  {
    CardsExtend(h, x);
    FirstDayExtend(h, x, x.card);
  }

  lemma RecordedSelf<W>(s: Features<W>, h: seq<Reviewed>, x: Reviewed)
    requires TotalCounts(s, h) && (x.card in Cards(h) ==> CardCounts(s, h, x.card))
    requires Record(s, x).cardCount == FirstReviews(h + [x], 0, |h| + 1)
    requires s.firstDayOffset.GetOr(x.day) == 0.0
    ensures x.card in Cards(h + [x]) && CardCounts(Record(s, x), h + [x], x.card)
  {
    RecordedSelfSums(s, h, x);
    RecordedSelfFirstDay(s, h, x);
    LastIndexExtend(h, x, x.card);
  }

  lemma RecordedToday<W>(s: Features<W>, h: seq<Reviewed>, x: Reviewed)
    requires TotalCounts(s, h) && TodayCounts(s, h)
    requires h == [] ==> x.day == 0.0
    ensures TodayCounts(Record(s, x), h + [x])
  {
    TodayStartExtend(h, x);
    TodayFirstReviews(h, x);
  }

  /** The first reviews of the last day after one more review. */
  lemma TodayFirstReviews(h: seq<Reviewed>, x: Reviewed)
    ensures var e, isNew := h + [x], if x.card !in Cards(h) then 1 else 0;
      FirstReviews(e, TodayStart(e), |e|)
      == (if h == [] || h[|h| - 1].day != x.day then 0 else FirstReviews(h, TodayStart(h), |h|)) + isNew
  {
    TodayStartExtend(h, x);
    NewIsFirst(h, x);
    if h != [] {
      FirstReviewsExtend(h, x, TodayStart(h), |h|);
    }
    assert FirstReviews(h + [x], |h|, |h|) == 0;
  }

  lemma RecordedCounts<W>(s: Features<W>, h: seq<Reviewed>, x: Reviewed)
    requires Counts(s, h)
    requires h == [] ==> x.day == 0.0
    ensures Counts(Record(s, x), h + [x])
  {
    var e := h + [x];
    CardsExtend(h, x);
    RecordedTotals(s, h, x);
    RecordedToday(s, h, x);
    forall card | card in Cards(e) ensures CardCounts(Record(s, x), e, card) {
      if card == x.card {
        RecordedSelf(s, h, x);
      } else {
        RecordedOther(s, h, x, card);
      }
    }
  }

  // ----- Every run from a fresh state -----

  /** The processed reviews of a run: complete inputs, the first on relative day 0 and the others on their own day. */
  function History(inputs: seq<ReviewInput<real>>): seq<Reviewed> {
    if inputs == [] then []
    else
      var h, last := History(inputs[..|inputs| - 1]), inputs[|inputs| - 1];
      if last.Complete()
      then h + [Reviewed(last.cardId, if h == [] then 0.0 else last.dayOffset, last.elapsedDays, last.elapsedSeconds)]
      else h
  }

  lemma RelativeDayIs<W>(s: Features<W>, h: seq<Reviewed>, input: ReviewInput<real>)
    requires TodayCounts(s, h)
    ensures RelativeDay(s, input) == if h == [] then 0.0 else input.dayOffset
  {
  }

  /** After any run from a fresh seed, every counter is the function of the history it stands for. */
  lemma {:induction false} CountersOfHistory<W>(c: Context<W>, seed: u64, inputs: seq<ReviewInput<real>>)
    requires c.scale.Sane()
    ensures Counts(RunReference(c, WithTorchSeed(c, seed), inputs).0, History(inputs))
    ensures RunReference(c, WithTorchSeed(c, seed), inputs).0.Dimensioned()
  {
    var fresh0 := WithTorchSeed(c, seed);
    if inputs != [] {
      var front, last := inputs[..|inputs| - 1], inputs[|inputs| - 1];
      CountersOfHistory(c, seed, front);
      var s := RunReference(c, fresh0, front).0;
      var h := History(front);
      if last.Complete() {
        ReferenceStepIs(c, s, last);
        DimensionedLength(c, s, last);
        RelativeDayIs(s, h, last);
        ProcessedCounts(c, s, h, last);
      } else {
        IncompleteStepsAgree(c, s, last, true);
      }
    }
  }

  /** Encodings, keys and generator do not count. */
  lemma OtherFieldsDoNotCount<W>(s: Features<W>, t: Features<W>, h: seq<Reviewed>)
    requires Counts(s, h) && t == s.(encodings := t.encodings, keys := t.keys, rng := t.rng)
    ensures Counts(t, h)
  {
    forall card | card in Cards(h) ensures CardCounts(t, h, card) {
      assert CardCounts(s, h, card);
    }
  }

  lemma ProcessedCounts<W>(c: Context<W>, s: Features<W>, h: seq<Reviewed>, input: ReviewInput<real>)
    requires s.Valid() && Counts(s, h)
    ensures Counts(Processed(c, s, input),
                   h + [Reviewed(input.cardId, if h == [] then 0.0 else input.dayOffset,
                                 input.elapsedDays, input.elapsedSeconds)])
  {
    var ids := NormalizedReviewIds(input);
    var t := RecordIds(FillEncodings(c, s, ids, 4), ids);
    OtherFieldsDoNotCount(s, t, h);
    RelativeDayIs(s, h, input);
    RecordedCounts(t, h, Reviewed(input.cardId, RelativeDay(s, input), input.elapsedDays, input.elapsedSeconds));
  }

  // ----- What the row features mean -----

  /**
   The clamps at 0 never bite: the differences count the reviews, and the first reviews, since the card's last one.
   */
  lemma DifferencesCountHistory<W>(s: Features<W>, h: seq<Reviewed>, card: int)
    requires TotalCounts(s, h) && card in Cards(h) && CardCounts(s, h, card)
    ensures UnscaledDiffReviews(s, card) == s.i - s.lastI[card] - 1 == |h| - (LastIndex(h, card) + 1)
    ensures UnscaledDiffNewCards(s, card) == s.cardCount - s.lastNewCards[card]
        == FirstReviews(h, LastIndex(h, card) + 1, |h|)
  {
    FirstReviewsSince(h, LastIndex(h, card));
  }

  lemma FirstReviewsSince(h: seq<Reviewed>, last: int)
    requires 0 <= last < |h|
    ensures FirstReviews(h, 0, |h|) - FirstReviews(h, 0, last + 1) == FirstReviews(h, last + 1, |h|) >= 0
  {
    FirstReviewsSplit(h, 0, last + 1, |h|);
    FirstReviewsNonNegative(h, last + 1, |h|);
  }

  lemma {:induction false} FirstReviewsNonNegative(h: seq<Reviewed>, from: nat, until: nat)
    requires from <= until <= |h|
    ensures 0 <= FirstReviews(h, from, until) <= until - from
    decreases until
  {
    if from < until {
      FirstReviewsNonNegative(h, from, until - 1);
    }
  }

  /** No two cards share a last review, and every last review lies in the past. */
  lemma LastReviewsDistinct<W>(s: Features<W>, h: seq<Reviewed>, a: int, b: int)
    requires TotalCounts(s, h) && a in Cards(h) && b in Cards(h) && CardCounts(s, h, a) && CardCounts(s, h, b)
    ensures 0 <= s.lastI[a] < s.i
    ensures s.lastI[a] == s.lastI[b] ==> a == b
  {
    InCards(h, a);
    InCards(h, b);
  }

  /** The row counters of a review describe the day it falls on, itself included. */
  lemma RowCountersIncludeReview<W>(s: Features<W>, h: seq<Reviewed>, x: Reviewed)
    requires TotalCounts(s, h) && TodayCounts(s, h)
    requires h == [] ==> x.day == 0.0
    ensures var e := h + [x];
      && RowTodayReviews(s, x.day) + 1 == |e| - TodayStart(e)
      && RowTodayNewCards(s, x.day, x.card) == FirstReviews(e, TodayStart(e), |e|)
  {
    RecordedToday(s, h, x);
  }

  // ----- Days as given -----

  /** The processed reviews of a run on the days as given. */
  function Given(inputs: seq<ReviewInput<real>>): seq<Reviewed> {
    if inputs == [] then []
    else
      var g, last := Given(inputs[..|inputs| - 1]), inputs[|inputs| - 1];
      if last.Complete() then g + [Reviewed(last.cardId, last.dayOffset, last.elapsedDays, last.elapsedSeconds)] else g
  }

  /** The same with the first review moved to day 0. */
  function Shifted(g: seq<Reviewed>): seq<Reviewed> {
    if g == [] then [] else g[0 := g[0].(day := 0.0)]
  }

  lemma {:induction false} HistoryIsShifted(inputs: seq<ReviewInput<real>>)
    ensures History(inputs) == Shifted(Given(inputs))
  {
    if inputs != [] {
      HistoryIsShifted(inputs[..|inputs| - 1]);
    }
  }

  lemma TodayStartIs(h: seq<Reviewed>, start: nat)
    requires start < |h| && forall k :: start <= k < |h| ==> h[k].day == h[|h| - 1].day
    requires start > 0 ==> h[start - 1].day != h[|h| - 1].day
    ensures TodayStart(h) == start
  {
  }

  /** Moving the first review to day 0 leaves today's suffix alone. */
  predicate DaysAgree(g: seq<Reviewed>)
    requires g != []
  {
    |g| == 1 || TodayStart(g) > 1 || (g[0].day == g[|g| - 1].day <==> g[|g| - 1].day == 0.0)
  }

  lemma TodayStartShifted(g: seq<Reviewed>)
    requires g != []
    ensures TodayStart(Shifted(g)) == TodayStart(g) <==> DaysAgree(g)
  {
    var h, last := Shifted(g), g[|g| - 1].day;
    if |g| > 1 {
      if TodayStart(g) > 1 {
        TodayStartIs(h, TodayStart(g));
      } else {
        assert forall k :: 1 <= k < |g| ==> g[k].day == last && h[k].day == last;
        TodayStartIs(g, if g[0].day == last then 0 else 1);
        TodayStartIs(h, if 0.0 == last then 0 else 1);
      }
    }
  }

  lemma {:induction false} FirstReviewsShifted(g: seq<Reviewed>, from: nat, until: nat)
    requires from <= until <= |g|
    ensures FirstReviews(Shifted(g), from, until) == FirstReviews(g, from, until)
  {
    if from < until {
      FirstReviewsShifted(g, from, until - 1);
      assert forall k :: 0 <= k < |g| ==> Shifted(g)[k].card == g[k].card;
      assert IsFirst(Shifted(g), until - 1) <==> IsFirst(g, until - 1);
    }
  }

  /**
   The day counters count the reviews of the last given day exactly when the shift of the first
   review leaves today's suffix alone; the same goes for its first reviews.
   */
  lemma GivenDayCounters<W>(c: Context<W>, seed: u64, inputs: seq<ReviewInput<real>>)
    requires c.scale.Sane() && Given(inputs) != []
    ensures var g, s := Given(inputs), RunReference(c, WithTorchSeed(c, seed), inputs).0;
      && (s.todayReviews + 1 == |g| - TodayStart(g) <==> DaysAgree(g))
      && (DaysAgree(g) ==> s.todayNewCards == FirstReviews(g, TodayStart(g), |g|))
  {
    var g := Given(inputs);
    CountersOfHistory(c, seed, inputs);
    HistoryIsShifted(inputs);
    TodayStartShifted(g);
    FirstReviewsShifted(g, TodayStart(g), |g|);
  }

  /** Two reviews on one given day at the start of a history count as reviews of two days. */
  lemma FirstDayCountsTwice(a: ReviewInput<real>, b: ReviewInput<real>)
    requires a.Complete() && b.Complete() && a.dayOffset == b.dayOffset == 10.0
    ensures Given([a, b]) != [] && !DaysAgree(Given([a, b]))
    ensures TodayStart(Given([a, b])) == 0 && TodayStart(History([a, b])) == 1
  {
    var inputs := [a, b];
    var none := inputs[..0];
    assert inputs[..1] == [a] && [a][..0] == none == [];
    assert Given(none) == [] && |Given([a])| == 1 && Given([a])[0].day == 10.0;
    assert Given(inputs)[0].day == 10.0 && Given(inputs)[1].day == 10.0 && |Given(inputs)| == 2;
    HistoryIsShifted(inputs);
    TodayStartIs(Given([a, b]), 0);
    TodayStartIs(History([a, b]), 1);
  }
}
