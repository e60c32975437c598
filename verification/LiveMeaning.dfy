/** What the session selects and asks its predictor, in terms of the candidates' own fields. */
module LiveMeaning {
  import opened Wrappers
  import opened Lists
  import opened ReviewRows
  import opened LiveSpec
  import opened LiveRanking
  import opened LiveInvariant

  // ----- Eligibility -----

  /** Within a day of the last review the intraday target counts, otherwise the normal one. */
  function DueTarget(c: Candidate): Num {
    if c.elapsedDays >= 0.0 && c.elapsedDays < 1.0 then c.intradayTarget else c.normalTarget
  }

  /** A finite prediction below 1 and below the raised target; a negative one always is. */
  predicate Due(line: FloatLine, extra: int, c: Candidate) {
    && (c.status == Active || c.status == Excluded)
    && c.prediction.Finite? && DueTarget(c).Finite?
    && c.prediction.value < line.one
    && (c.prediction.value < 0 || c.prediction.value < line.add(DueTarget(c).value, extra))
  }

  lemma EligibleMeansDue(line: FloatLine, extra: int, c: Candidate)
    requires line.Sound()
    ensures Target(c) == DueTarget(c) && (Eligible(line, extra, c) <==> Due(line, extra, c))
  {
  }

  // ----- The order of the ranking -----

  function Overdueness(line: FloatLine, c: Candidate): Option<real>
    requires c.prediction.Finite? && DueTarget(c).Finite?
  {
    line.ratio(if c.prediction.value > line.floor then c.prediction.value else line.floor,
               if DueTarget(c).value > line.floor then DueTarget(c).value else line.floor)
  }

  /** Whether the quantity the mode ranks by is finite. */
  predicate Rankable(cfg: Config, c: Candidate) {
    match cfg.order
    case Random => true
    case RetrievabilityAscending => c.prediction.Finite?
    case RetrievabilityDescending => c.prediction.Finite?
    case RelativeOverdueness =>
      c.prediction.Finite? && DueTarget(c).Finite? && Overdueness(cfg.line, c).Some?
  }

  /** Lower predictions first when ascending, higher ones when descending, else the lower key or ratio. */
  predicate Sooner(cfg: Config, a: Candidate, b: Candidate)
    requires Rankable(cfg, a) && Rankable(cfg, b)
  {
    match cfg.order
    case RetrievabilityAscending => a.prediction.value < b.prediction.value
    case RetrievabilityDescending => a.prediction.value > b.prediction.value
    case Random => a.randomKey < b.randomKey
    case RelativeOverdueness => Overdueness(cfg.line, a).value < Overdueness(cfg.line, b).value
  }

  predicate WinsTie(a: Candidate, b: Candidate) {
    a.tieBreaker < b.tieBreaker || (a.tieBreaker == b.tieBreaker && a.id.cardId < b.id.cardId)
  }

  /** Due before not due, rankable before not, then by the mode, then the tie-breaker, then the card. */
  predicate Precedes(cfg: Config, extra: int, a: Candidate, b: Candidate) {
    if Due(cfg.line, extra, a) != Due(cfg.line, extra, b) then Due(cfg.line, extra, a)
    else if Rankable(cfg, a) != Rankable(cfg, b) then Rankable(cfg, a)
    else if Rankable(cfg, a) && (Sooner(cfg, a, b) || Sooner(cfg, b, a)) then Sooner(cfg, a, b)
    else WinsTie(a, b)
  }

  lemma BeforeMeansPrecedes(cfg: Config, extra: int, a: Candidate, b: Candidate)
    requires cfg.line.Sound()
    ensures Before(cfg, extra)(a, b) <==> Precedes(cfg, extra, a, b)
  {
    EligibleMeansDue(cfg.line, extra, a);
    EligibleMeansDue(cfg.line, extra, b);
  }

  /** Every candidate of the ranking precedes all later ones. */
  lemma RankingOrder(s: Session, i: nat, j: nat)
    requires s.Coherent() && s.cfg.line.Sound() && i < j < |s.Ranked()|
    ensures Precedes(s.cfg, s.extra, s.Ranked()[i], s.Ranked()[j])
  {
    RankedIsSorted(s);
    BeforeMeansPrecedes(s.cfg, s.extra, s.Ranked()[i], s.Ranked()[j]);
  }

  // ----- The selection -----

  function CandidateOf(s: Session, card: int): Candidate
    requires s.Coherent() && card in s.live
  {
    s.slots[s.live[card]]
  }

  /** The cards a selection counts as active, and those it may select. */
  predicate Counted(s: Session, excluded: set<int>, card: int)
    requires s.Coherent() && card in s.live
  {
    var status := CandidateOf(s, card).status;
    (status == Active || status == PendingRefresh) && card !in excluded
  }

  predicate MaySelect(s: Session, excluded: set<int>, card: int)
    requires s.Coherent() && card in s.live
  {
    Counted(s, excluded, card) && Due(s.cfg.line, s.extra, CandidateOf(s, card))
  }

  lemma LiveCandidateOf(s: Session, card: int)
    requires s.Coherent() && card in s.live
    ensures CandidateOf(s, card) in s.LiveCandidates() && CandidateOf(s, card).Card() == card
  {
    FilterMembers(s.slots, s.LiveFilter());
  }

  lemma FoundByCard(s: Session, c: Candidate)
    requires s.Coherent() && c in s.LiveCandidates()
    ensures c.Card() in s.live && CandidateOf(s, c.Card()) == c
  {
    LiveIsItsSlot(s, c);
  }

  ghost function ActiveOf(s: Session, excluded: set<int>): seq<Candidate> {
    Filter(s.Ranked(), ActiveFilter(excluded))
  }

  ghost function EligibleOf(s: Session, excluded: set<int>): seq<Candidate> {
    Filter(ActiveOf(s, excluded), EligibleFilter(s.cfg.line, s.extra))
  }

  lemma ActiveMembers(s: Session, excluded: set<int>)
    requires s.Coherent()
    ensures forall c :: c in ActiveOf(s, excluded) ==>
        c in s.LiveCandidates() && c.Card() in s.live && CandidateOf(s, c.Card()) == c && Counted(s, excluded, c.Card())
    ensures forall card :: card in s.live && Counted(s, excluded, card) ==>
        CandidateOf(s, card) in ActiveOf(s, excluded)
  {
    RankedIsSorted(s);
    FilterMembers(s.Ranked(), ActiveFilter(excluded));
    forall c | c in ActiveOf(s, excluded)
      ensures c in s.LiveCandidates() && c.Card() in s.live && CandidateOf(s, c.Card()) == c
    {
      FoundByCard(s, c);
    }
    forall card | card in s.live && Counted(s, excluded, card)
      ensures CandidateOf(s, card) in ActiveOf(s, excluded)
    {
      LiveCandidateOf(s, card);
    }
  }

  lemma EligibleMembers(s: Session, excluded: set<int>)
    requires s.Coherent() && s.cfg.line.Sound()
    ensures forall c :: c in EligibleOf(s, excluded) ==>
        c in s.LiveCandidates() && c.Card() in s.live && CandidateOf(s, c.Card()) == c
            && MaySelect(s, excluded, c.Card())
    ensures forall card :: card in s.live && MaySelect(s, excluded, card) ==>
        CandidateOf(s, card) in EligibleOf(s, excluded)
  {
    ActiveMembers(s, excluded);
    FilterMembers(ActiveOf(s, excluded), EligibleFilter(s.cfg.line, s.extra));
    forall c: Candidate ensures Eligible(s.cfg.line, s.extra, c) <==> Due(s.cfg.line, s.extra, c) {
      EligibleMeansDue(s.cfg.line, s.extra, c);
    }
  }

  lemma EligibleSorted(s: Session, excluded: set<int>)
    requires s.Coherent()
    ensures SortedBy(EligibleOf(s, excluded), Before(s.cfg, s.extra))
    ensures Distinct(ActiveOf(s, excluded)) && Distinct(EligibleOf(s, excluded))
  {
    RankedIsSorted(s);
    FilterSorted(s.Ranked(), ActiveFilter(excluded), Before(s.cfg, s.extra));
    FilterSorted(ActiveOf(s, excluded), EligibleFilter(s.cfg.line, s.extra), Before(s.cfg, s.extra));
    FilterDistinct(s.Ranked(), ActiveFilter(excluded));
    FilterDistinct(ActiveOf(s, excluded), EligibleFilter(s.cfg.line, s.extra));
  }

  /** Who is selected: due active cards that are not excluded, the first of them all. */
  lemma SelectionMeans(s: Session, k: nat, excluded: set<int>, count: nat)
    requires s.Coherent() && s.cfg.line.Sound()
    ensures var selected := SelectionResult(s, k, excluded, count).selected;
      && |selected| <= k
      && (forall i :: 0 <= i < |selected| ==>
          selected[i].card in s.live && MaySelect(s, excluded, selected[i].card)
          && selected[i].retrievability == CandidateOf(s, selected[i].card).prediction
          && selected[i].target == DueTarget(CandidateOf(s, selected[i].card)))
      && (forall i, j :: 0 <= i < j < |selected| ==>
          Precedes(s.cfg, s.extra, CandidateOf(s, selected[i].card), CandidateOf(s, selected[j].card)))
      && (forall card :: card in s.live && MaySelect(s, excluded, card) ==>
          (exists i :: 0 <= i < |selected| && selected[i].card == card)
          || (|selected| == k && forall i :: 0 <= i < |selected| ==>
              Precedes(s.cfg, s.extra, CandidateOf(s, selected[i].card), CandidateOf(s, card))))
  {
    var eligible := EligibleOf(s, excluded);
    var selected := SelectionResult(s, k, excluded, count).selected;
    EligibleMembers(s, excluded);
    EligibleSorted(s, excluded);
    assert forall i :: 0 <= i < |selected| ==> selected[i] == Selected()(eligible[i]);
    forall i | 0 <= i < |selected|
      ensures selected[i].card in s.live && CandidateOf(s, selected[i].card) == eligible[i]
      ensures Target(eligible[i]) == DueTarget(eligible[i])
    {
      assert eligible[i] in eligible;
      EligibleMeansDue(s.cfg.line, s.extra, eligible[i]);
    }
    forall i: nat, j: nat | i < j < |eligible| ensures Precedes(s.cfg, s.extra, eligible[i], eligible[j]) {
      BeforeMeansPrecedes(s.cfg, s.extra, eligible[i], eligible[j]);
    }
    forall card | card in s.live && MaySelect(s, excluded, card)
      ensures (exists i :: 0 <= i < |selected| && selected[i].card == card)
        || (|selected| == k && forall i :: 0 <= i < |selected| ==>
            Precedes(s.cfg, s.extra, CandidateOf(s, selected[i].card), CandidateOf(s, card)))
    {
      var j: nat :| j < |eligible| && eligible[j] == CandidateOf(s, card);
      LiveCandidateOf(s, card);
      if j < |selected| {
        assert selected[j].card == card;
      }
    }
  }

  lemma CardsOfDistinct(s: Session, cs: seq<Candidate>, cards: set<int>)
    requires s.Coherent() && Distinct(cs)
    requires forall c :: c in cs ==> c in s.LiveCandidates() && c.Card() in cards
    requires forall card :: card in cards ==> card in s.live && CandidateOf(s, card) in cs
    ensures |cs| == |cards|
  {
    var listed := Cards(cs);
    forall i, j | 0 <= i < j < |cs| ensures listed[i] != listed[j] {
      if listed[i] == listed[j] {
        assert cs[i] in cs && cs[j] in cs;
        LiveCardsAreUnique(s, cs[i], cs[j]);
      }
    }
    DistinctLength(listed);
    forall card ensures card in listed <==> card in cards {
      if card in listed {
        var i :| 0 <= i < |listed| && listed[i] == card;
        assert cs[i] in cs;
      }
      if card in cards {
        var i :| 0 <= i < |cs| && cs[i] == CandidateOf(s, card);
        LiveCandidateOf(s, card);
        assert listed[i] == card;
      }
    }
    assert (set card | card in listed) == cards;
  }

  /** The two counts of a result are the numbers of those cards. */
  lemma CountsMean(s: Session, k: nat, excluded: set<int>, count: nat)
    requires s.Coherent() && s.cfg.line.Sound()
    ensures var r := SelectionResult(s, k, excluded, count);
      && r.generation == s.generation && r.refreshedCount == count
      && r.activeCount == |set card | card in s.live && Counted(s, excluded, card)|
      && r.eligibleCount == |set card | card in s.live && MaySelect(s, excluded, card)|
      && |r.selected| == if k < r.eligibleCount then k else r.eligibleCount
  {
    ActiveMembers(s, excluded);
    EligibleMembers(s, excluded);
    EligibleSorted(s, excluded);
    CardsOfDistinct(s, ActiveOf(s, excluded), set card | card in s.live && Counted(s, excluded, card));
    CardsOfDistinct(s, EligibleOf(s, excluded), set card | card in s.live && MaySelect(s, excluded, card));
  }

  // ----- What the predictor is asked -----

  /** The rows for seeds ask for the elapsed times the seeds give. */
  function SeedRows(seeds: seq<Seed>, day: real): (r: seq<Row>)
    ensures |r| == |seeds|
  {
    seq(|seeds|, i requires 0 <= i < |seeds| => Row(seeds[i].id, day, seeds[i].elapsedDays, seeds[i].elapsedSeconds))
  }

  /** Both elapsed times are -1, for a new card, or neither is negative. */
  predicate Consistent(seed: Seed) {
    || (seed.elapsedDays == -1.0 && seed.elapsedSeconds == -1.0)
    || (seed.elapsedDays >= 0.0 && seed.elapsedSeconds >= 0.0)
  }

  predicate AllConsistent(seeds: seq<Seed>) {
    forall i :: 0 <= i < |seeds| ==> Consistent(seeds[i])
  }

  ghost predicate OneSeedPerCard(seeds: seq<Seed>) {
    forall i, j :: 0 <= i < j < |seeds| ==> seeds[i].id.cardId != seeds[j].id.cardId
  }

  /** A candidate with everything its seed says; its last review lies the elapsed times before the target. */
  predicate SeededAs(c: Candidate, seed: Seed, timestamp: real, day: real) {
    && c.id == seed.id && c.normalTarget == seed.normalTarget && c.intradayTarget == seed.intradayTarget
    && c.tieBreaker == seed.tieBreaker && c.randomKey == seed.randomKey
    && c.queryTimestamp == timestamp && c.queryDay == day
    && c.elapsedDays == seed.elapsedDays && c.elapsedSeconds == seed.elapsedSeconds
    && (seed.elapsedDays == -1.0 <==> c.anchor.None?)
    && (c.anchor.Some? ==> c.anchor.value.timestamp + seed.elapsedSeconds == timestamp)
    && (c.anchor.Some? ==> c.anchor.value.day + seed.elapsedDays == day)
  }

  /** The predictor's answer to the rows, one prediction for each. */
  predicate Answers(cfg: Config, rows: seq<Row>) {
    cfg.predict(rows).Some? && |cfg.predict(rows).value| == |rows|
  }

  /** The session holds exactly the seeded cards, in order, active with the predictions for their rows. */
  ghost predicate HoldsSeeds(t: Session, seeds: seq<Seed>, timestamp: real, day: real) {
    && Answers(t.cfg, SeedRows(seeds, day))
    && |t.slots| == |seeds| && |t.live| == |seeds|
    && forall i :: 0 <= i < |seeds| ==>
      && SeededAs(t.slots[i], seeds[i], timestamp, day) && t.slots[i].status == Active && t.slots[i].slot == i
      && t.slots[i].prediction == t.cfg.predict(SeedRows(seeds, day)).value[i]
      && seeds[i].id.cardId in t.live && t.live[seeds[i].id.cardId] == i
  }

  lemma SeedIsConsistent(seed: Seed, timestamp: real, day: real, slot: nat)
    ensures CandidateFromSeed(seed, timestamp, day, slot).Ok? <==> Consistent(seed)
    ensures CandidateFromSeed(seed, timestamp, day, slot).Ok? ==>
      var c := CandidateFromSeed(seed, timestamp, day, slot).value;
      SeededAs(c, seed, timestamp, day) && c.slot == slot && c.prediction == NonFinite && c.status == PendingRefresh
  {
  }

  lemma {:induction false} SeedsAreConsistent(seeds: seq<Seed>, timestamp: real, day: real, k: nat)
    requires k <= |seeds|
    ensures FromSeeds(seeds, timestamp, day, k).Ok? <==> forall i :: 0 <= i < k ==> Consistent(seeds[i])
    ensures FromSeeds(seeds, timestamp, day, k).Ok? ==>
      var cs := FromSeeds(seeds, timestamp, day, k).value;
      forall i :: 0 <= i < k ==>
        SeededAs(cs[i], seeds[i], timestamp, day) && cs[i].slot == i && cs[i].Card() == seeds[i].id.cardId
  {
    if k > 0 {
      SeedsAreConsistent(seeds, timestamp, day, k - 1);
      SeedIsConsistent(seeds[k - 1], timestamp, day, k - 1);
    }
  }

  lemma NoDuplicateSeeds(seeds: seq<Seed>)
    ensures DuplicateOf(Mapped(seeds, SeedCard())) == None <==> OneSeedPerCard(seeds)
  {
    NoDuplicateIsDistinct(Mapped(seeds, SeedCard()));
  }

  /** Whether the cards of the seeds are asked for and get a prediction each. */
  ghost predicate Admissible(cfg: Config, seeds: seq<Seed>, day: real) {
    OneSeedPerCard(seeds) && AllConsistent(seeds) && Answers(cfg, SeedRows(seeds, day))
  }

  lemma RowsOfSeeds(cs: seq<Candidate>, seeds: seq<Seed>, timestamp: real, day: real)
    requires |cs| == |seeds| && forall i :: 0 <= i < |seeds| ==> SeededAs(cs[i], seeds[i], timestamp, day)
    ensures InitialRows(cs) == SeedRows(seeds, day)
  {
  }

  lemma {:induction false} SeedsHeld(t: Session, cs: seq<Candidate>, predictions: seq<Num>, seeds: seq<Seed>,
                                     timestamp: real, day: real)
    requires |cs| == |predictions| == |seeds| && OneSeedPerCard(seeds)
    requires forall i :: 0 <= i < |seeds| ==> SeededAs(cs[i], seeds[i], timestamp, day) && cs[i].slot == i
    requires t.slots == Activated(cs, predictions) && t.live == Index(cs)
    requires t.cfg.predict(SeedRows(seeds, day)) == Some(predictions)
    ensures HoldsSeeds(t, seeds, timestamp, day)
  {
    forall i: nat, j: nat | i < j < |cs| ensures Cards(cs)[i] != Cards(cs)[j] {
      assert cs[i].Card() == seeds[i].id.cardId && cs[j].Card() == seeds[j].id.cardId;
    }
    forall i: nat | i < |seeds| ensures seeds[i].id.cardId in t.live && t.live[seeds[i].id.cardId] == i {
      IndexFinds(cs, i);
    }
    IndexSize(cs);
  }

  lemma {:induction false} IndexSize(cs: seq<Candidate>)
    requires Distinct(Cards(cs))
    ensures |Index(cs)| == |cs|
  {
    if cs != [] {
      var front, last := cs[..|cs| - 1], cs[|cs| - 1];
      assert Cards(front) == Cards(cs)[..|front|];
      IndexSize(front);
      forall j | 0 <= j < |front| ensures front[j].Card() != last.Card() {
        assert Cards(cs)[j] != Cards(cs)[|front|];
      }
      assert last.Card() !in Index(front);
    }
  }

  /** A session starts exactly for one consistent seed per card and a prediction for each of their rows. */
  lemma StartMeans(cfg: Config, seeds: seq<Seed>, timestamp: real, day: real)
    ensures Start(cfg, seeds, timestamp, day).Ok? <==> Admissible(cfg, seeds, day)
    ensures Start(cfg, seeds, timestamp, day).Ok? ==>
      var t := Start(cfg, seeds, timestamp, day).value;
      && t.cfg == cfg && t.targetTimestamp == timestamp && t.targetDay == day && t.extra == 0 && t.generation == 1
      && HoldsSeeds(t, seeds, timestamp, day)
  {
    NoDuplicateSeeds(seeds);
    SeedsAreConsistent(seeds, timestamp, day, |seeds|);
    if AllConsistent(seeds) {
      var cs := FromSeeds(seeds, timestamp, day, |seeds|).value;
      RowsOfSeeds(cs, seeds, timestamp, day);
      if Admissible(cfg, seeds, day) {
        SeedsHeld(Start(cfg, seeds, timestamp, day).value, cs, cfg.predict(SeedRows(seeds, day)).value, seeds,
                  timestamp, day);
      }
    }
  }

  /** Full reconciliation installs the same universe at the new target, whatever the session held. */
  lemma ReconcileMeans(s: Session, seeds: seq<Seed>, timestamp: real, day: real, extra: int)
    ensures ReconcileCandidates(s, seeds, timestamp, day, extra).Ok? <==> Admissible(s.cfg, seeds, day)
    ensures ReconcileCandidates(s, seeds, timestamp, day, extra).Ok? ==>
      var t := ReconcileCandidates(s, seeds, timestamp, day, extra).value;
      && t.cfg == s.cfg && t.targetTimestamp == timestamp && t.targetDay == day && t.extra == extra
      && t.generation == s.generation + 1 && HoldsSeeds(t, seeds, timestamp, day)
  {
    NoDuplicateSeeds(seeds);
    SeedsAreConsistent(seeds, timestamp, day, |seeds|);
    if AllConsistent(seeds) {
      var cs := FromSeeds(seeds, timestamp, day, |seeds|).value;
      RowsOfSeeds(cs, seeds, timestamp, day);
      if Admissible(s.cfg, seeds, day) {
        SeedsHeld(ReconcileCandidates(s, seeds, timestamp, day, extra).value, cs,
                  s.cfg.predict(SeedRows(seeds, day)).value, seeds, timestamp, day);
      }
    }
  }

  // ----- What goes wrong -----

  /** The first card that an earlier seed has already named. */
  ghost predicate RepeatedAt(cards: seq<int>, card: int, k: nat) {
    && k < |cards| && cards[k] == card && card in cards[..k]
    && forall i, j :: 0 <= i < j < k ==> cards[i] != cards[j]
  }

  lemma {:induction false} FirstRepeated(cards: seq<int>, card: int)
    requires DuplicateOf(cards) == Some(card)
    ensures exists k: nat :: RepeatedAt(cards, card, k)
  {
    var front := cards[..|cards| - 1];
    if DuplicateOf(front).Some? {
      FirstRepeated(front, card);
      var k: nat :| RepeatedAt(front, card, k);
      assert cards[..k] == front[..k];
      assert RepeatedAt(cards, card, k);
    } else {
      NoDuplicateIsDistinct(front);
      assert cards[..|front|] == front;
      assert RepeatedAt(cards, card, |front|);
    }
  }

  /** One elapsed time of a seed is -1 and the other not, or one is negative. */
  predicate Mixed(seed: Seed) {
    (seed.elapsedDays == -1.0 && seed.elapsedSeconds != -1.0)
        || (seed.elapsedDays != -1.0 && seed.elapsedSeconds == -1.0)
  }

  ghost predicate FirstInconsistent(seeds: seq<Seed>, k: nat) {
    k < |seeds| && !Consistent(seeds[k]) && forall i :: 0 <= i < k ==> Consistent(seeds[i])
  }

  /** Seeds are checked for repeated cards, then one by one for their times; then the predictor is asked. */
  ghost predicate FailsWith(cfg: Config, seeds: seq<Seed>, day: real, error: LiveError) {
    match error
    case DuplicateCard(card) => exists k: nat :: RepeatedAt(Mapped(seeds, SeedCard()), card, k)
    case MixedElapsed => OneSeedPerCard(seeds) && exists k: nat :: FirstInconsistent(seeds, k) && Mixed(seeds[k])
    case NegativeElapsed => OneSeedPerCard(seeds) && exists k: nat :: FirstInconsistent(seeds, k) && !Mixed(seeds[k])
    case PredictionFailed =>
      OneSeedPerCard(seeds) && AllConsistent(seeds) && cfg.predict(SeedRows(seeds, day)).None?
    case WrongRowCount =>
      && OneSeedPerCard(seeds) && AllConsistent(seeds)
      && cfg.predict(SeedRows(seeds, day)).Some? && |cfg.predict(SeedRows(seeds, day)).value| != |seeds|
    case _ => false
  }

  lemma {:induction false} FirstBadSeed(seeds: seq<Seed>, timestamp: real, day: real, k: nat)
    requires k <= |seeds| && FromSeeds(seeds, timestamp, day, k).Err?
    ensures exists j: nat ::
      && FirstInconsistent(seeds, j)
      && FromSeeds(seeds, timestamp, day, k).error == (if Mixed(seeds[j]) then MixedElapsed else NegativeElapsed)
  {
    if FromSeeds(seeds, timestamp, day, k - 1).Err? {
      FirstBadSeed(seeds, timestamp, day, k - 1);
    } else {
      SeedsAreConsistent(seeds, timestamp, day, k - 1);
      SeedIsConsistent(seeds[k - 1], timestamp, day, k - 1);
      assert FirstInconsistent(seeds, k - 1);
    }
  }

  lemma SeedsFail(cfg: Config, seeds: seq<Seed>, timestamp: real, day: real, error: LiveError)
    requires match DuplicateOf(Mapped(seeds, SeedCard()))
      case Some(card) => error == DuplicateCard(card)
      case None => FromSeeds(seeds, timestamp, day, |seeds|) == Err(error)
    ensures FailsWith(cfg, seeds, day, error)
  {
    NoDuplicateSeeds(seeds);
    match DuplicateOf(Mapped(seeds, SeedCard()))
    case Some(card) => FirstRepeated(Mapped(seeds, SeedCard()), card);
    case None => FirstBadSeed(seeds, timestamp, day, |seeds|);
  }

  lemma PredictorFails(cfg: Config, seeds: seq<Seed>, day: real, error: LiveError)
    requires OneSeedPerCard(seeds) && AllConsistent(seeds) && Predicted(cfg, SeedRows(seeds, day)) == Err(error)
    ensures FailsWith(cfg, seeds, day, error)
  {
  }

  /** No session: the first thing that is wrong is the error. */
  lemma StartFails(cfg: Config, seeds: seq<Seed>, timestamp: real, day: real)
    requires Start(cfg, seeds, timestamp, day).Err?
    ensures FailsWith(cfg, seeds, day, Start(cfg, seeds, timestamp, day).error)
  {
    var error := Start(cfg, seeds, timestamp, day).error;
    NoDuplicateSeeds(seeds);
    SeedsAreConsistent(seeds, timestamp, day, |seeds|);
    if OneSeedPerCard(seeds) && AllConsistent(seeds) {
      RowsOfSeeds(FromSeeds(seeds, timestamp, day, |seeds|).value, seeds, timestamp, day);
      PredictorFails(cfg, seeds, day, error);
    } else {
      SeedsFail(cfg, seeds, timestamp, day, error);
    }
  }

  lemma ReconcileFails(s: Session, seeds: seq<Seed>, timestamp: real, day: real, extra: int)
    requires ReconcileCandidates(s, seeds, timestamp, day, extra).Err?
    ensures FailsWith(s.cfg, seeds, day, ReconcileCandidates(s, seeds, timestamp, day, extra).error)
  {
    var error := ReconcileCandidates(s, seeds, timestamp, day, extra).error;
    NoDuplicateSeeds(seeds);
    SeedsAreConsistent(seeds, timestamp, day, |seeds|);
    if OneSeedPerCard(seeds) && AllConsistent(seeds) {
      RowsOfSeeds(FromSeeds(seeds, timestamp, day, |seeds|).value, seeds, timestamp, day);
      PredictorFails(s.cfg, seeds, day, error);
    } else {
      SeedsFail(s.cfg, seeds, timestamp, day, error);
    }
  }

  lemma RowsAtOwnTarget(cs: seq<Candidate>, seeds: seq<Seed>, timestamp: real, day: real)
    requires |cs| == |seeds| && AllConsistent(seeds)
    requires forall i :: 0 <= i < |seeds| ==> CandidateFromSeed(seeds[i], timestamp, day, i) == Ok(cs[i])
    ensures RowsAt(cs, timestamp, day) == SeedRows(seeds, day)
  {
  }

  /** Replacement asks for the same rows, although it derives the elapsed times from the last reviews. */
  lemma ReplaceMeans(s: Session, seeds: seq<Seed>)
    ensures ReplaceCandidates(s, seeds).Ok? <==> Admissible(s.cfg, seeds, s.targetDay)
    ensures ReplaceCandidates(s, seeds).Ok? ==>
      var t := ReplaceCandidates(s, seeds).value;
      && t.cfg == s.cfg && t.targetTimestamp == s.targetTimestamp && t.targetDay == s.targetDay && t.extra == s.extra
      && t.generation == s.generation + 1 && HoldsSeeds(t, seeds, s.targetTimestamp, s.targetDay)
  {
    var timestamp, day := s.targetTimestamp, s.targetDay;
    NoDuplicateSeeds(seeds);
    SeedsAreConsistent(seeds, timestamp, day, |seeds|);
    if AllConsistent(seeds) {
      var cs := FromSeeds(seeds, timestamp, day, |seeds|).value;
      FromSeedsBuilds(seeds, timestamp, day, |seeds|);
      RowsAtOwnTarget(cs, seeds, timestamp, day);
      if Admissible(s.cfg, seeds, day) {
        SeedsHeld(ReplaceCandidates(s, seeds).value, cs, s.cfg.predict(SeedRows(seeds, day)).value, seeds,
                  timestamp, day);
      }
    }
  }

  lemma ReplaceFails(s: Session, seeds: seq<Seed>)
    requires ReplaceCandidates(s, seeds).Err?
    ensures FailsWith(s.cfg, seeds, s.targetDay, ReplaceCandidates(s, seeds).error)
  {
    var timestamp, day, error := s.targetTimestamp, s.targetDay, ReplaceCandidates(s, seeds).error;
    NoDuplicateSeeds(seeds);
    SeedsAreConsistent(seeds, timestamp, day, |seeds|);
    if OneSeedPerCard(seeds) && AllConsistent(seeds) {
      FromSeedsBuilds(seeds, timestamp, day, |seeds|);
      RowsAtOwnTarget(FromSeeds(seeds, timestamp, day, |seeds|).value, seeds, timestamp, day);
      PredictorFails(s.cfg, seeds, day, error);
    } else {
      SeedsFail(s.cfg, seeds, timestamp, day, error);
    }
  }

  /** A card is asked for at the target, with the times since its last review, or as new. */
  function Asked(c: Candidate, timestamp: real, day: real): Row {
    Row(c.id, day, if c.anchor.Some? then day - c.anchor.value.day else c.newElapsedDays,
        if c.anchor.Some? then timestamp - c.anchor.value.timestamp else c.newElapsedSeconds)
  }

  function AskedRows(cs: seq<Candidate>, timestamp: real, day: real): (r: seq<Row>)
    ensures |r| == |cs|
  {
    seq(|cs|, i requires 0 <= i < |cs| => Asked(cs[i], timestamp, day))
  }

  lemma RowsAreAsked(cs: seq<Candidate>, timestamp: real, day: real)
    ensures RowsAt(cs, timestamp, day) == AskedRows(cs, timestamp, day)
  {
  }

  /** The candidates of the cards a session transported. */
  function Transported(s: Session, cards: seq<int>): (r: seq<Candidate>)
    requires s.Coherent() && forall i :: 0 <= i < |cards| ==> cards[i] in s.live
    ensures |r| == |cards|
  {
    seq(|cards|, i requires 0 <= i < |cards| => CandidateOf(s, cards[i]))
  }

  lemma TransportedIs(s: Session, refreshExcluded: set<int>)
    requires s.Coherent()
    ensures var cards := Cards(Transport(s, refreshExcluded));
      (forall i :: 0 <= i < |cards| ==> cards[i] in s.live)
      && Transported(s, cards) == Transport(s, refreshExcluded)
  {
    var transport := Transport(s, refreshExcluded);
    TransportInSlots(s, refreshExcluded);
    forall i | 0 <= i < |transport|
      ensures Cards(transport)[i] in s.live && CandidateOf(s, Cards(transport)[i]) == transport[i]
    {
      FoundByCard(s, transport[i]);
    }
  }

  /**
   A refresh asks for the transported cards in slot order, each at the target with the times since its own last
   review, and gives each the prediction for its own row; it fails exactly when there are none, or not one for each.
   */
  lemma RefreshAsks(s: Session, timestamp: real, day: real, refreshExcluded: set<int>, extra: int)
    requires s.Coherent()
    ensures var cards := Cards(Transport(s, refreshExcluded));
      && (forall i :: 0 <= i < |cards| ==> cards[i] in s.live)
      && (forall i, j :: 0 <= i < j < |cards| ==> s.live[cards[i]] < s.live[cards[j]])
      && var rows := AskedRows(Transported(s, cards), timestamp, day);
      && (Refresh(s, timestamp, day, refreshExcluded, extra).Ok? <==> Answers(s.cfg, rows))
      && (Refresh(s, timestamp, day, refreshExcluded, extra).Err? ==>
          Refresh(s, timestamp, day, refreshExcluded, extra).error
          == if s.cfg.predict(rows).None? then PredictionFailed else WrongRowCount)
      && (Refresh(s, timestamp, day, refreshExcluded, extra).Ok? ==>
          var t := Refresh(s, timestamp, day, refreshExcluded, extra).value;
          && t.lastTransport == cards && |t.slots| == |s.slots|
          && forall i :: 0 <= i < |cards| ==>
            t.slots[s.live[cards[i]]].prediction == s.cfg.predict(rows).value[i])
  {
    var transport := Transport(s, refreshExcluded);
    TransportedIs(s, refreshExcluded);
    TransportInPlace(s, refreshExcluded);
    RowsAreAsked(transport, timestamp, day);
    TransportAscends(s, refreshExcluded);
    if Refresh(s, timestamp, day, refreshExcluded, extra).Ok? {
      var predictions := s.cfg.predict(AskedRows(transport, timestamp, day)).value;
      forall i | 0 <= i < |transport|
        ensures WriteBack(s.slots, transport, predictions, timestamp, day, |transport|)[transport[i].slot].prediction
             == predictions[i]
      {
        WriteBackAt(s.slots, transport, predictions, timestamp, day, |transport|, i);
      }
    }
  }

  lemma TransportAscends(s: Session, refreshExcluded: set<int>)
    requires s.Coherent()
    ensures var cards := Cards(Transport(s, refreshExcluded));
      forall i, j :: 0 <= i < j < |cards| ==>
        cards[i] in s.live && cards[j] in s.live && s.live[cards[i]] < s.live[cards[j]]
  {
    var transport := Transport(s, refreshExcluded);
    TransportInPlace(s, refreshExcluded);
    TransportInSlots(s, refreshExcluded);
    forall i: nat | i < |transport|
      ensures Cards(transport)[i] in s.live && s.live[Cards(transport)[i]] == transport[i].slot
    {
      LiveIsItsSlot(s, transport[i]);
    }
  }

  // ----- Incremental reconciliation and upserts -----

  /** The rows that ask for the candidates a session holds, at its target. */
  function OwnRows(t: Session): (r: seq<Row>)
    ensures |r| == |t.slots|
  {
    seq(|t.slots|, i requires 0 <= i < |t.slots| =>
      Row(t.slots[i].id, t.targetDay, t.slots[i].elapsedDays, t.slots[i].elapsedSeconds))
  }

  /** A kept card moved to a new target: its review history, targets and keys stay. */
  predicate KeptAs(d: Candidate, c: Candidate, timestamp: real, day: real) {
    && d.id == c.id && d.anchor == c.anchor && d.normalTarget == c.normalTarget && d.intradayTarget == c.intradayTarget
    && d.tieBreaker == c.tieBreaker && d.randomKey == c.randomKey
    && d.queryTimestamp == timestamp && d.queryDay == day
    && Row(d.id, day, d.elapsedDays, d.elapsedSeconds) == Asked(c, timestamp, day)
  }

  /** Where a desired card comes from: its changed seed, or the candidate the session holds. */
  ghost predicate ReconciledFrom(s: Session, card: int, changed: seq<Seed>, d: Candidate, timestamp: real, day: real)
    requires s.Coherent()
  {
    if exists seed :: seed in changed && seed.id.cardId == card
    then exists seed :: seed in changed && seed.id.cardId == card && SeededAs(d, seed, timestamp, day)
    else card in s.live && KeptAs(d, CandidateOf(s, card), timestamp, day)
  }

  lemma {:induction false} ReconciledSources(s: Session, ids: seq<int>, changed: seq<Seed>, timestamp: real, day: real,
                                             k: nat)
    requires s.Coherent() && k <= |ids| && Reconciled(s, ids, changed, timestamp, day, k).Ok?
    ensures var cs := Reconciled(s, ids, changed, timestamp, day, k).value;
      forall i :: 0 <= i < k ==>
        cs[i].Card() == ids[i] && cs[i].queryDay == day && ReconciledFrom(s, ids[i], changed, cs[i], timestamp, day)
  {
    if k > 0 {
      ReconciledSources(s, ids, changed, timestamp, day, k - 1);
      ReconciledSource(s, ids, changed, timestamp, day, k - 1);
    }
  }

  lemma ReconciledSource(s: Session, ids: seq<int>, changed: seq<Seed>, timestamp: real, day: real, k: nat)
    requires s.Coherent() && k < |ids| && Reconciled(s, ids, changed, timestamp, day, k + 1).Ok?
    ensures var d := Reconciled(s, ids, changed, timestamp, day, k + 1).value[k];
      d.Card() == ids[k] && ReconciledFrom(s, ids[k], changed, d, timestamp, day) && d.queryDay == day
  {
    match SeedFor(changed, ids[k])
    case Some(seed) => SeedIsConsistent(seed, timestamp, day, k);
    case None =>
  }

  /** Incremental reconciliation holds each desired card from its source, predicted for its own row. */
  lemma ReconcileMembershipMeans(s: Session, ids: seq<int>, changed: seq<Seed>, timestamp: real, day: real, extra: int)
    requires s.Coherent() && ReconcileMembership(s, ids, changed, timestamp, day, extra).Ok?
    ensures var t := ReconcileMembership(s, ids, changed, timestamp, day, extra).value;
      && t.cfg == s.cfg && t.targetTimestamp == timestamp && t.targetDay == day && t.extra == extra
      && t.generation == s.generation + 1 && |t.slots| == |ids| && Answers(s.cfg, OwnRows(t))
      && forall i :: 0 <= i < |ids| ==>
        && t.slots[i].status == Active && t.slots[i].prediction == s.cfg.predict(OwnRows(t)).value[i]
        && ReconciledFrom(s, ids[i], changed, t.slots[i], timestamp, day)
        && ids[i] in t.live && t.live[ids[i]] == i
  {
    var t := ReconcileMembership(s, ids, changed, timestamp, day, extra).value;
    var cs := Reconciled(s, ids, changed, timestamp, day, |ids|).value;
    ReconciledSources(s, ids, changed, timestamp, day, |ids|);
    assert InitialRows(cs) == OwnRows(t);
    NoDuplicateIsDistinct(ids);
    assert Cards(cs) == ids;
    forall i: nat | i < |ids| ensures ids[i] in t.live && t.live[ids[i]] == i {
      IndexFinds(cs, i);
    }
    forall i: nat | i < |ids| ensures ReconciledFrom(s, ids[i], changed, t.slots[i], timestamp, day) {
      ActivatedKeepsSource(s, ids[i], changed, cs[i], t.slots[i], timestamp, day);
    }
  }

  lemma ActivatedKeepsSource(s: Session, card: int, changed: seq<Seed>, c: Candidate, d: Candidate, timestamp: real,
                             day: real)
    requires s.Coherent() && ReconciledFrom(s, card, changed, c, timestamp, day)
    requires d == c.(prediction := d.prediction, status := d.status)
    ensures ReconciledFrom(s, card, changed, d, timestamp, day)
  {
    if exists seed :: seed in changed && seed.id.cardId == card {
      var seed :| seed in changed && seed.id.cardId == card && SeededAs(c, seed, timestamp, day);
      assert SeededAs(d, seed, timestamp, day);
    }
  }

  /** An upserted card waits for its prediction; it stays excluded where it was. */
  ghost predicate UpsertedAs(s: Session, t: Session, c: Candidate)
    requires s.Coherent() && t.Coherent()
  {
    && c.Card() in t.live
    && (c.Card() in s.live ==> t.live[c.Card()] == s.live[c.Card()])
    && (c.Card() !in s.live ==> t.live[c.Card()] >= |s.slots|)
    && CandidateOf(t, c.Card()) == c.(slot := t.live[c.Card()], status := CandidateOf(t, c.Card()).status)
    && CandidateOf(t, c.Card()).status ==
      if c.Card() in s.live && (CandidateOf(s, c.Card()).status == Excluded
                                || CandidateOf(s, c.Card()).status == ExcludedPendingRefresh)
      then ExcludedPendingRefresh else PendingRefresh
  }

  ghost predicate LeftAlone(s: Session, t: Session, card: int)
    requires s.Coherent() && t.Coherent()
  {
    && (card in t.live <==> card in s.live)
    && (card in s.live ==> t.live[card] == s.live[card] && CandidateOf(t, card) == CandidateOf(s, card))
  }

  lemma UpsertedThenLeft(s: Session, before: Session, t: Session, c: Candidate)
    requires s.Coherent() && before.Coherent() && t.Coherent()
    requires UpsertedAs(s, before, c) && LeftAlone(before, t, c.Card())
    ensures UpsertedAs(s, t, c)
  {
  }

  lemma LeftThenUpserted(s: Session, before: Session, t: Session, c: Candidate)
    requires s.Coherent() && before.Coherent() && t.Coherent() && |before.slots| >= |s.slots|
    requires LeftAlone(s, before, c.Card()) && UpsertedAs(before, t, c)
    ensures UpsertedAs(s, t, c)
  {
  }

  lemma LeftTwice(s: Session, before: Session, t: Session, card: int)
    requires s.Coherent() && before.Coherent() && t.Coherent()
    requires LeftAlone(s, before, card) && LeftAlone(before, t, card)
    ensures LeftAlone(s, t, card)
  {
  }

  lemma UpsertedOne(s: Session, c: Candidate)
    requires s.Coherent()
    ensures var t := UpsertOne(s, c);
      && t.Coherent() && |t.slots| >= |s.slots| && t == s.(slots := t.slots, live := t.live)
      && UpsertedAs(s, t, c) && forall card :: card != c.Card() ==> LeftAlone(s, t, card)
  {
  }

  predicate OutsideOf(cs: seq<Candidate>, k: nat, card: int)
    requires k <= |cs|
  {
    forall i :: 0 <= i < k ==> cs[i].Card() != card
  }

  ghost predicate FirstUpserted(s: Session, t: Session, cs: seq<Candidate>, k: nat)
    requires s.Coherent() && t.Coherent() && k <= |cs|
  {
    && |t.slots| >= |s.slots|
    && (forall i :: 0 <= i < k ==> UpsertedAs(s, t, cs[i]))
    && forall card :: OutsideOf(cs, k, card) ==> LeftAlone(s, t, card)
  }

  lemma NextUpserted(s: Session, before: Session, t: Session, cs: seq<Candidate>, k: nat)
    requires s.Coherent() && before.Coherent() && k < |cs|
    requires forall i, j :: 0 <= i < j < |cs| ==> cs[i].Card() != cs[j].Card()
    requires FirstUpserted(s, before, cs, k) && t == UpsertOne(before, cs[k])
    ensures t.Coherent() && FirstUpserted(s, t, cs, k + 1)
  {
    UpsertedOne(before, cs[k]);
    assert OutsideOf(cs, k, cs[k].Card());
    LeftThenUpserted(s, before, t, cs[k]);
    forall i | 0 <= i < k ensures UpsertedAs(s, t, cs[i]) {
      UpsertedThenLeft(s, before, t, cs[i]);
    }
    forall card | OutsideOf(cs, k + 1, card) ensures LeftAlone(s, t, card) {
      assert OutsideOf(cs, k, card) && cs[k].Card() != card;
      LeftTwice(s, before, t, card);
    }
  }

  lemma {:induction false} UpsertedAll(s: Session, cs: seq<Candidate>, k: nat)
    requires s.Coherent() && k <= |cs| && forall i, j :: 0 <= i < j < |cs| ==> cs[i].Card() != cs[j].Card()
    ensures FirstUpserted(s, UpsertAll(s, cs, k), cs, k)
  {
    if k == 0 {
      NoneUpserted(s, cs);
    } else {
      UpsertedAll(s, cs, k - 1);
      NextUpserted(s, UpsertAll(s, cs, k - 1), UpsertAll(s, cs, k), cs, k - 1);
    }
  }

  lemma NoneUpserted(s: Session, cs: seq<Candidate>)
    requires s.Coherent()
    ensures FirstUpserted(s, s, cs, 0)
  {
  }

  /** The card of a seed as its upsert leaves it. */
  ghost predicate SeedUpserted(s: Session, t: Session, seed: Seed)
    requires s.Coherent() && t.Coherent()
  {
    exists c :: UpsertedAs(s, t, c) && SeededAs(c, seed, s.targetTimestamp, s.targetDay) && c.prediction == NonFinite
  }

  lemma GenerationIsIgnored(s: Session, t: Session, u: Session, c: Candidate)
    requires s.Coherent() && t.Coherent() && u.Coherent() && u.slots == t.slots && u.live == t.live
    ensures UpsertedAs(s, t, c) ==> UpsertedAs(s, u, c)
    ensures LeftAlone(s, t, c.Card()) ==> LeftAlone(s, u, c.Card())
  {
  }

  predicate NoSeedFor(seeds: seq<Seed>, card: int) {
    forall i :: 0 <= i < |seeds| ==> seeds[i].id.cardId != card
  }

  lemma {:induction false} UpsertedSeeds(s: Session, seeds: seq<Seed>, cs: seq<Candidate>, t: Session)
    requires s.Coherent() && |cs| == |seeds| && OneSeedPerCard(seeds)
    requires t == UpsertAll(s, cs, |cs|).(generation := t.generation)
    requires forall i :: 0 <= i < |seeds| ==>
      SeededAs(cs[i], seeds[i], s.targetTimestamp, s.targetDay) && cs[i].prediction == NonFinite
    ensures t.Coherent() && t == s.(slots := t.slots, live := t.live, generation := t.generation)
    ensures forall i :: 0 <= i < |seeds| ==> SeedUpserted(s, t, seeds[i])
    ensures forall card :: NoSeedFor(seeds, card) ==> LeftAlone(s, t, card)
  {
    var u := UpsertAll(s, cs, |cs|);
    forall i, j | 0 <= i < j < |cs| ensures cs[i].Card() != cs[j].Card() {
      assert cs[i].id == seeds[i].id && cs[j].id == seeds[j].id;
    }
    UpsertedAll(s, cs, |cs|);
    UpsertKeepsTheRest(s, cs, |cs|);
    forall i | 0 <= i < |seeds| ensures SeedUpserted(s, t, seeds[i]) {
      GenerationIsIgnored(s, u, t, cs[i]);
    }
    forall card | NoSeedFor(seeds, card) ensures LeftAlone(s, t, card) {
      assert forall i :: 0 <= i < |cs| ==> cs[i].Card() == seeds[i].id.cardId;
      assert OutsideOf(cs, |cs|, card) && LeftAlone(s, u, card);
    }
  }

  /** Upserts take one consistent seed per card, at the session's own target, and leave every other card alone. */
  lemma UpsertMeans(s: Session, seeds: seq<Seed>)
    requires s.Coherent()
    ensures UpsertCandidates(s, seeds).Ok? <==> OneSeedPerCard(seeds) && AllConsistent(seeds)
    ensures UpsertCandidates(s, seeds).Ok? ==>
      var t := UpsertCandidates(s, seeds).value;
      && t.Coherent() && t == s.(slots := t.slots, live := t.live, generation := s.generation + 1)
      && (forall i :: 0 <= i < |seeds| ==> SeedUpserted(s, t, seeds[i]))
      && forall card :: NoSeedFor(seeds, card) ==> LeftAlone(s, t, card)
  {
    NoDuplicateSeeds(seeds);
    SeedsAreConsistent(seeds, s.targetTimestamp, s.targetDay, |seeds|);
    if OneSeedPerCard(seeds) && AllConsistent(seeds) {
      var cs := FromSeeds(seeds, s.targetTimestamp, s.targetDay, |seeds|).value;
      FromSeedsBuilds(seeds, s.targetTimestamp, s.targetDay, |seeds|);
      UpsertedSeeds(s, seeds, cs, UpsertCandidates(s, seeds).value);
      UpsertKeepsTheRest(s, cs, |cs|);
    }
  }

  lemma {:induction false} UpsertKeepsTheRest(s: Session, cs: seq<Candidate>, k: nat)
    requires s.Coherent() && k <= |cs|
    ensures var t := UpsertAll(s, cs, k);
      t == s.(slots := t.slots, live := t.live)
  {
    if k > 0 {
      UpsertKeepsTheRest(s, cs, k - 1);
    }
  }
}
