/**
 The live prediction session on values: its candidates, ranking, refresh, reconciliation and the
 other operations. The class in module LiveSession is tied to these functions.
 */
module LiveSpec {
  import opened Wrappers
  import opened ReviewRows
  import opened Lists

  /** A prediction, target or extra: a point of the float line, or not finite. */
  datatype Num = Finite(value: int) | NonFinite

  /**
   The finite floats in ascending order, numbered so that the next float is the next number and 0.0
   is 0. Addition, subtraction and the overdueness ratio round in whatever way the functions say.
   */
  datatype FloatLine = FloatLine(one: int, floor: int, add: (int, int) -> int, sub: (int, int) -> int,
                                 ratio: (int, int) -> Option<real>) {
    /** Rounded addition never decreases, and reaches past every number. */
    ghost predicate Sound() {
      && 0 < one
      && (forall t, a, b :: a <= b ==> Plus(t, a) <= Plus(t, b))
      && (forall t, v :: Reaches(t, v))
    }

    ghost predicate Reaches(t: int, v: int) {
      exists a :: Plus(t, a) > v
    }

    /** Addition and subtraction without rounding, as on a fixed grid. */
    ghost predicate Exact() {
      (forall t, a :: Plus(t, a) == t + a) && forall a, b :: Minus(a, b) == a - b
    }

    function Plus(t: int, a: int): int {
      add(t, a)
    }

    function Minus(a: int, b: int): int {
      sub(a, b)
    }
  }

  datatype LiveOrder = RetrievabilityAscending | RetrievabilityDescending | RelativeOverdueness | Random

  datatype Status = Active | Excluded | PendingRefresh | ExcludedPendingRefresh

  datatype Identity = Identity(reviewId: int, cardId: int, noteId: MaybeId, deckId: MaybeId, presetId: MaybeId)

  /** A row handed to the predictor. */
  datatype Row = Row(id: Identity, dayOffset: real, elapsedDays: real, elapsedSeconds: real)

  /** The time of a card's last review. */
  datatype Anchor = Anchor(timestamp: real, day: real)

  datatype Seed = Seed(id: Identity, elapsedDays: real, elapsedSeconds: real,
                       normalTarget: Num, intradayTarget: Num, tieBreaker: nat, randomKey: nat)

  /** `anchor` is absent exactly for a card without a prior review. */
  datatype Candidate = Candidate(
    id: Identity, anchor: Option<Anchor>, newElapsedDays: real, newElapsedSeconds: real,
    queryTimestamp: real, queryDay: real, elapsedSeconds: real, elapsedDays: real,
    prediction: Num, normalTarget: Num, intradayTarget: Num, tieBreaker: nat, randomKey: nat,
    status: Status, slot: nat)
  {
    function Card(): int {
      id.cardId
    }
  }

  datatype Config = Config(order: LiveOrder, refreshLimit: nat, line: FloatLine, predict: seq<Row> -> Option<seq<Num>>)

  datatype LiveError =
    | DuplicateCard(card: int) | MixedElapsed | NegativeElapsed | UnknownCard(card: int) | NotDesired(card: int)
    | PredictionFailed | WrongRowCount

  // ----- Eligibility and ranking -----

  function Min(a: int, b: int): int {
    if a < b then a else b
  }

  function Max(a: int, b: int): int {
    if a > b then a else b
  }

  function Target(c: Candidate): Num {
    if 0.0 <= c.elapsedDays < 1.0 then c.intradayTarget else c.normalTarget
  }

  function Threshold(line: FloatLine, target: int, extra: int): int {
    Min(line.one, Max(0, line.Plus(target, extra)))
  }

  predicate Eligible(line: FloatLine, extra: int, c: Candidate) {
    && (c.status == Active || c.status == Excluded)
    && c.prediction.Finite? && Target(c).Finite?
    && c.prediction.value < Threshold(line, Target(c).value, extra)
  }

  datatype Key = Key(ineligible: bool, nonFinite: bool, directed: real, tieBreaker: nat, card: int)

  /** The directed value that ranks a candidate, absent when it is not finite. */
  function Directed(cfg: Config, c: Candidate): Option<real> {
    match cfg.order
    case Random => Some(c.randomKey as real)
    case RetrievabilityAscending => if c.prediction.Finite? then Some(c.prediction.value as real) else None
    case RetrievabilityDescending => if c.prediction.Finite? then Some(-(c.prediction.value as real)) else None
    case RelativeOverdueness =>
      if c.prediction.Finite? && Target(c).Finite?
      then cfg.line.ratio(Max(c.prediction.value, cfg.line.floor), Max(Target(c).value, cfg.line.floor))
      else None
  }

  function KeyOf(cfg: Config, extra: int, c: Candidate): Key {
    var directed := Directed(cfg, c);
    Key(!Eligible(cfg.line, extra, c), directed.None?, directed.GetOr(0.0), c.tieBreaker, c.Card())
  }

  predicate KeyLess(a: Key, b: Key) {
    if a.ineligible != b.ineligible then b.ineligible
    else if a.nonFinite != b.nonFinite then b.nonFinite
    else if a.directed != b.directed then a.directed < b.directed
    else if a.tieBreaker != b.tieBreaker then a.tieBreaker < b.tieBreaker
    else a.card < b.card
  }

  function Before(cfg: Config, extra: int): (Candidate, Candidate) -> bool {
    (a: Candidate, b: Candidate) => KeyLess(KeyOf(cfg, extra, a), KeyOf(cfg, extra, b))
  }

  function BySlot(): (Candidate, Candidate) -> bool {
    (a: Candidate, b: Candidate) => a.slot < b.slot
  }

  // ----- The session -----

  /** `live` maps each live card to its slot; a slot whose card is gone or moved on is stale. */
  datatype Session = Session(
    cfg: Config, targetTimestamp: real, targetDay: real, extra: int, generation: nat,
    slots: seq<Candidate>, live: map<int, nat>, lastMembership: seq<int>, lastTransport: seq<int>)
  {
    predicate IsLive(c: Candidate) {
      c.Card() in live && live[c.Card()] == c.slot
    }

    /** Every live card's slot holds that card, and every slot holds a candidate that knows it. */
    ghost predicate Coherent() {
      && (forall i :: 0 <= i < |slots| ==> slots[i].slot == i)
      && (forall card :: card in live ==> live[card] < |slots| && slots[live[card]].Card() == card)
    }

    function LiveFilter(): Candidate -> bool {
      (c: Candidate) => IsLive(c)
    }

    /** The live candidates in slot order. */
    function LiveCandidates(): seq<Candidate> {
      Filter(slots, LiveFilter())
    }

    function Ranked(): seq<Candidate> {
      SortBy(LiveCandidates(), Before(cfg, extra))
    }
  }

  // ----- Selection -----

  datatype Selection = Selection(card: int, retrievability: Num, target: Num)

  datatype RefreshResult = RefreshResult(
    generation: nat, refreshedCount: nat, eligibleCount: nat, activeCount: nat,
    selected: seq<Selection>, nextRetentionExtra: Option<int>)

  function ActiveFilter(excluded: set<int>): Candidate -> bool {
    (c: Candidate) => (c.status == Active || c.status == PendingRefresh) && c.Card() !in excluded
  }

  function EligibleFilter(line: FloatLine, extra: int): Candidate -> bool {
    (c: Candidate) => Eligible(line, extra, c)
  }

  function Selected(): Candidate -> Selection {
    (c: Candidate) => Selection(c.Card(), c.prediction, Target(c))
  }

  /** The first extra, from a starting one on, whose threshold exceeds the prediction. */
  ghost predicate IsFirstAbove(line: FloatLine, prediction: int, target: int, from: int, r: int) {
    && from <= r
    && prediction < Threshold(line, target, r)
    && forall x :: from <= x < r ==> prediction >= Threshold(line, target, x)
  }

  function BoundaryStart(line: FloatLine, prediction: int, target: int): int {
    var required := line.Minus(prediction + 1, target);
    if required <= line.Minus(prediction, target) then required + 1 else required
  }

  lemma ThresholdMonotone(line: FloatLine, target: int, a: int, b: int)
    requires line.Sound() && a <= b
    ensures Threshold(line, target, a) <= Threshold(line, target, b)
  {
    assert line.Plus(target, a) <= line.Plus(target, b);
  }

  lemma FirstAboveExists(line: FloatLine, prediction: int, target: int, from: int)
    requires line.Sound() && prediction < line.one
    ensures exists r :: IsFirstAbove(line, prediction, target, from, r)
  {
    assert line.Reaches(target, prediction);
    var reach :| line.Plus(target, reach) > prediction;
    var top := Max(from, reach);
    assert prediction < Threshold(line, target, top) by {
      ThresholdMonotone(line, target, reach, top);
    }
    var r := from;
    while prediction >= Threshold(line, target, r)
      invariant from <= r <= top
      invariant forall x :: from <= x < r ==> prediction >= Threshold(line, target, x)
      decreases top - r
    {
      r := r + 1;
    }
    assert IsFirstAbove(line, prediction, target, from, r);
  }

  lemma FirstAboveUnique(line: FloatLine, prediction: int, target: int, from: int, a: int, b: int)
    requires IsFirstAbove(line, prediction, target, from, a) && IsFirstAbove(line, prediction, target, from, b)
    ensures a == b
  {
  }

  ghost function FirstAbove(line: FloatLine, prediction: int, target: int, from: int): (r: int)
    requires line.Sound() && prediction < line.one
    ensures IsFirstAbove(line, prediction, target, from, r)
  {
    FirstAboveExists(line, prediction, target, from);
    var r :| IsFirstAbove(line, prediction, target, from, r);
    r
  }

  /** The next extra at which an active candidate becomes eligible, if it lies above the current one. */
  ghost function NextBoundary(line: FloatLine, extra: int, c: Candidate): Option<int>
    requires line.Sound()
  {
    if c.status != Active || c.prediction.NonFinite? || Target(c).NonFinite? || c.prediction.value >= line.one then None
    else
      var p, t := c.prediction.value, Target(c).value;
      var required := FirstAbove(line, p, t, BoundaryStart(line, p, t));
      if required > extra then Some(required) else None
  }

  /** The least boundary of a list of candidates. */
  ghost function LeastBoundary(line: FloatLine, extra: int, cs: seq<Candidate>): Option<int>
    requires line.Sound()
  {
    if cs == [] then None
    else
      var rest := LeastBoundary(line, extra, cs[..|cs| - 1]);
      match NextBoundary(line, extra, cs[|cs| - 1])
      case None => rest
      case Some(b) => if rest.Some? && rest.value <= b then rest else Some(b)
  }

  ghost function SelectionResult(s: Session, selectLimit: nat, excluded: set<int>, refreshedCount: nat): RefreshResult
    requires s.cfg.line.Sound()
  {
    var active := Filter(s.Ranked(), ActiveFilter(excluded));
    var eligible := Filter(active, EligibleFilter(s.cfg.line, s.extra));
    RefreshResult(s.generation, refreshedCount, |eligible|, |active|,
                  Mapped(Take(selectLimit, eligible), Selected()),
                  LeastBoundary(s.cfg.line, s.extra, active))
  }

  // ----- Rows and seeds -----

  function ElapsedAt(c: Candidate, timestamp: real, day: real): (real, real) {
    match c.anchor
    case Some(a) => (day - a.day, timestamp - a.timestamp)
    case None => (c.newElapsedDays, c.newElapsedSeconds)
  }

  function PredictionRow(c: Candidate, timestamp: real, day: real): Row {
    var (days, seconds) := ElapsedAt(c, timestamp, day);
    Row(c.id, day, days, seconds)
  }

  function InitialPredictionRow(c: Candidate): Row {
    Row(c.id, c.queryDay, c.elapsedDays, c.elapsedSeconds)
  }

  function CandidateFromSeed(seed: Seed, timestamp: real, day: real, slot: nat): Result<Candidate, LiveError> {
    var isNew := seed.elapsedDays == -1.0;
    if isNew != (seed.elapsedSeconds == -1.0) then Err(MixedElapsed)
    else if !isNew && (seed.elapsedDays < 0.0 || seed.elapsedSeconds < 0.0) then Err(NegativeElapsed)
    else
      Ok(Candidate(seed.id,
                   if isNew then None else Some(Anchor(timestamp - seed.elapsedSeconds, day - seed.elapsedDays)),
                   seed.elapsedDays, seed.elapsedSeconds, timestamp, day, seed.elapsedSeconds, seed.elapsedDays,
                   NonFinite, seed.normalTarget, seed.intradayTarget, seed.tieBreaker, seed.randomKey,
                   PendingRefresh, slot))
  }

  /** The first card that occurs twice. */
  function DuplicateOf(cards: seq<int>): Option<int> {
    if cards == [] then None
    else
      var front := cards[..|cards| - 1];
      match DuplicateOf(front)
      case Some(card) => Some(card)
      case None => if cards[|cards| - 1] in front then Some(cards[|cards| - 1]) else None
  }

  function SeedCard(): Seed -> int {
    (seed: Seed) => seed.id.cardId
  }

  /** Candidates for the first `k` seeds, each at its position; the first bad seed is the error. */
  function FromSeeds(seeds: seq<Seed>, timestamp: real, day: real, k: nat): (r: Result<seq<Candidate>, LiveError>)
    requires k <= |seeds|
    ensures r.Ok? ==> |r.value| == k
  {
    if k == 0 then Ok([])
    else match FromSeeds(seeds, timestamp, day, k - 1)
      case Err(e) => Err(e)
      case Ok(cs) =>
        match CandidateFromSeed(seeds[k - 1], timestamp, day, k - 1)
        case Err(e) => Err(e)
        case Ok(c) => Ok(cs + [c])
  }

  function Predicted(cfg: Config, rows: seq<Row>): (r: Result<seq<Num>, LiveError>)
    ensures r.Ok? ==> |r.value| == |rows|
  {
    match cfg.predict(rows)
    case None => Err(PredictionFailed)
    case Some(predictions) => if |predictions| != |rows| then Err(WrongRowCount) else Ok(predictions)
  }

  /** New candidates with their predictions, all active. */
  function Activated(cs: seq<Candidate>, predictions: seq<Num>): (r: seq<Candidate>)
    requires |cs| == |predictions|
    ensures |r| == |cs|
  {
    seq(|cs|, i requires 0 <= i < |cs| => cs[i].(prediction := predictions[i], status := Active))
  }

  function Index(cs: seq<Candidate>): (m: map<int, nat>)
    ensures forall card :: card in m ==> m[card] < |cs| && cs[m[card]].Card() == card
  {
    if cs == [] then map[] else Index(cs[..|cs| - 1])[cs[|cs| - 1].Card() := |cs| - 1]
  }

  function Cards(cs: seq<Candidate>): (r: seq<int>)
    ensures |r| == |cs|
  {
    seq(|cs|, i requires 0 <= i < |cs| => cs[i].Card())
  }

  function InitialRows(cs: seq<Candidate>): (r: seq<Row>)
    ensures |r| == |cs|
  {
    seq(|cs|, i requires 0 <= i < |cs| => InitialPredictionRow(cs[i]))
  }

  function RowsAt(cs: seq<Candidate>, timestamp: real, day: real): (r: seq<Row>)
    ensures |r| == |cs|
  {
    seq(|cs|, i requires 0 <= i < |cs| => PredictionRow(cs[i], timestamp, day))
  }

  // ----- Operations -----

  function Start(cfg: Config, seeds: seq<Seed>, timestamp: real, day: real): Result<Session, LiveError> {
    match DuplicateOf(Mapped(seeds, SeedCard()))
    case Some(card) => Err(DuplicateCard(card))
    case None =>
      match FromSeeds(seeds, timestamp, day, |seeds|)
      case Err(e) => Err(e)
      case Ok(cs) =>
        match Predicted(cfg, InitialRows(cs))
        case Err(e) => Err(e)
        case Ok(predictions) =>
          Ok(Session(cfg, timestamp, day, 0, 1, Activated(cs, predictions), Index(cs), [], []))
  }

  function PendingFilter(refreshExcluded: set<int>): Candidate -> bool {
    (c: Candidate) => c.status == PendingRefresh && c.Card() !in refreshExcluded
  }

  function RestFilter(refreshExcluded: set<int>, chosen: seq<int>): Candidate -> bool {
    (c: Candidate) => c.Card() !in refreshExcluded && c.Card() !in chosen
        && (c.status == Active || c.status == PendingRefresh)
  }

  /** Pending candidates in slot order, then the others in rank order, up to the refresh limit. */
  function PendingChosen(s: Session, refreshExcluded: set<int>): seq<Candidate> {
    Take(s.cfg.refreshLimit, Filter(s.LiveCandidates(), PendingFilter(refreshExcluded)))
  }

  function Membership(s: Session, refreshExcluded: set<int>): seq<Candidate> {
    var pending := PendingChosen(s, refreshExcluded);
    Take(s.cfg.refreshLimit, pending + Filter(s.Ranked(), RestFilter(refreshExcluded, Cards(pending))))
  }

  function Transport(s: Session, refreshExcluded: set<int>): seq<Candidate> {
    SortBy(Membership(s, refreshExcluded), BySlot())
  }

  function Settled(status: Status): Status {
    match status
    case PendingRefresh => Active
    case ExcludedPendingRefresh => Excluded
    case other => other
  }

  function Refreshed(c: Candidate, timestamp: real, day: real, prediction: Num): Candidate {
    var (days, seconds) := ElapsedAt(c, timestamp, day);
    c.(prediction := prediction, queryTimestamp := timestamp, queryDay := day,
       elapsedDays := days, elapsedSeconds := seconds, status := Settled(c.status))
  }

  /** The slots after the first `k` refreshed candidates were written back. */
  function WriteBack(slots: seq<Candidate>, transport: seq<Candidate>, predictions: seq<Num>, timestamp: real,
                     day: real, k: nat)
    : (r: seq<Candidate>)
    requires |transport| == |predictions| && k <= |transport|
    requires forall j :: 0 <= j < |transport| ==> transport[j].slot < |slots|
    ensures |r| == |slots|
  {
    if k == 0 then slots
    else
      var c := transport[k - 1];
      WriteBack(slots, transport, predictions, timestamp, day,
                k - 1)[c.slot := Refreshed(c, timestamp, day, predictions[k - 1])]
  }

  function Refresh(s: Session, timestamp: real, day: real, refreshExcluded: set<int>,
                   extra: int): Result<Session, LiveError>
    requires s.Coherent()
  {
    var transport := Transport(s, refreshExcluded);
    TransportInSlots(s, refreshExcluded);
    match Predicted(s.cfg, RowsAt(transport, timestamp, day))
    case Err(e) => Err(e)
    case Ok(predictions) =>
      Ok(s.(extra := extra, targetTimestamp := timestamp, targetDay := day, generation := s.generation + 1,
            slots := WriteBack(s.slots, transport, predictions, timestamp, day, |transport|),
            lastMembership := Cards(Membership(s, refreshExcluded)), lastTransport := Cards(transport)))
  }

  lemma RankedAreLive(s: Session)
    ensures forall c :: c in s.Ranked() ==> c in s.LiveCandidates()
    ensures forall c :: c in s.LiveCandidates() ==> c in s.Ranked()
  {
    SortPermutes(s.LiveCandidates(), Before(s.cfg, s.extra));
    SameMembers(s.LiveCandidates(), s.Ranked());
  }

  lemma MembersAreLive(s: Session, refreshExcluded: set<int>)
    ensures forall c :: c in Membership(s, refreshExcluded) ==> c in s.LiveCandidates()
  {
    RankedAreLive(s);
    var pending := PendingChosen(s, refreshExcluded);
    var rest := Filter(s.Ranked(), RestFilter(refreshExcluded, Cards(pending)));
    FilterMembers(s.LiveCandidates(), PendingFilter(refreshExcluded));
    FilterMembers(s.Ranked(), RestFilter(refreshExcluded, Cards(pending)));
    assert forall c :: c in pending ==> c in s.LiveCandidates();
    assert forall c :: c in rest ==> c in s.LiveCandidates();
    assert forall c :: c in pending + rest ==> c in pending || c in rest;
  }

  lemma TransportInSlots(s: Session, refreshExcluded: set<int>)
    requires s.Coherent()
    ensures forall j :: 0 <= j < |Transport(s, refreshExcluded)| ==>
      Transport(s, refreshExcluded)[j].slot < |s.slots| && Transport(s, refreshExcluded)[j] in s.LiveCandidates()
  {
    var membership, transport := Membership(s, refreshExcluded), Transport(s, refreshExcluded);
    SortPermutes(membership, BySlot());
    SameMembers(membership, transport);
    MembersAreLive(s, refreshExcluded);
    FilterMembers(s.slots, s.LiveFilter());
    forall j | 0 <= j < |transport| ensures transport[j].slot < |s.slots| && transport[j] in s.LiveCandidates() {
      assert transport[j] in membership;
    }
  }

  /** A complete replacement universe, predicted and installed at once. */
  function ReconcileCandidates(s: Session, seeds: seq<Seed>, timestamp: real, day: real,
                               extra: int): Result<Session, LiveError> {
    match DuplicateOf(Mapped(seeds, SeedCard()))
    case Some(card) => Err(DuplicateCard(card))
    case None =>
      match FromSeeds(seeds, timestamp, day, |seeds|)
      case Err(e) => Err(e)
      case Ok(cs) => Install(s, cs, timestamp, day, extra)
  }

  function Install(s: Session, cs: seq<Candidate>, timestamp: real, day: real, extra: int): Result<Session, LiveError> {
    match Predicted(s.cfg, InitialRows(cs))
    case Err(e) => Err(e)
    case Ok(predictions) =>
      Ok(Session(s.cfg, timestamp, day, extra, s.generation + 1, Activated(cs, predictions), Index(cs), Cards(cs),
                 Cards(cs)))
  }

  function SeedFor(changed: seq<Seed>, card: int): (r: Option<Seed>)
    ensures r.Some? ==> r.value in changed && r.value.id.cardId == card
    ensures r.None? ==> forall seed :: seed in changed ==> seed.id.cardId != card
  {
    if changed == [] then None
    else if changed[|changed| - 1].id.cardId == card then Some(changed[|changed| - 1])
    else SeedFor(changed[..|changed| - 1], card)
  }

  /** The first changed seed whose card is not desired. */
  function UndesiredOf(changed: seq<Seed>, ids: seq<int>): Option<int> {
    if changed == [] then None
    else match UndesiredOf(changed[..|changed| - 1], ids)
      case Some(card) => Some(card)
      case None => if changed[|changed| - 1].id.cardId !in ids then Some(changed[|changed| - 1].id.cardId) else None
  }

  function Kept(c: Candidate, timestamp: real, day: real, slot: nat): Candidate {
    var (days, seconds) := ElapsedAt(c, timestamp, day);
    c.(queryTimestamp := timestamp, queryDay := day, elapsedSeconds := seconds, elapsedDays := days,
       prediction := NonFinite, status := PendingRefresh, slot := slot)
  }

  /** Candidates for the first `k` desired cards: reseeded when changed, otherwise kept with their anchor. */
  function Reconciled(s: Session, ids: seq<int>, changed: seq<Seed>, timestamp: real, day: real, k: nat)
    : (r: Result<seq<Candidate>, LiveError>)
    requires s.Coherent() && k <= |ids|
    ensures r.Ok? ==> |r.value| == k
  {
    if k == 0 then Ok([])
    else match Reconciled(s, ids, changed, timestamp, day, k - 1)
      case Err(e) => Err(e)
      case Ok(cs) =>
        var card := ids[k - 1];
        match SeedFor(changed, card)
        case Some(seed) =>
          (match CandidateFromSeed(seed, timestamp, day, k - 1)
           case Err(e) => Err(e)
           case Ok(c) => Ok(cs + [c]))
        case None =>
          if card !in s.live then Err(UnknownCard(card))
          else Ok(cs + [Kept(s.slots[s.live[card]], timestamp, day, k - 1)])
  }

  function ReconcileMembership(s: Session, ids: seq<int>, changed: seq<Seed>, timestamp: real, day: real, extra: int)
    : Result<Session, LiveError>
    requires s.Coherent()
  {
    if DuplicateOf(ids).Some? then Err(DuplicateCard(DuplicateOf(ids).value))
    else if DuplicateOf(Mapped(changed, SeedCard())).Some?
        then Err(DuplicateCard(DuplicateOf(Mapped(changed, SeedCard())).value))
    else if UndesiredOf(changed, ids).Some? then Err(NotDesired(UndesiredOf(changed, ids).value))
    else match Reconciled(s, ids, changed, timestamp, day, |ids|)
      case Err(e) => Err(e)
      case Ok(cs) => Install(s, cs, timestamp, day, extra)
  }

  function ExcludedStatus(status: Status): Status {
    match status
    case Active => Excluded
    case PendingRefresh => ExcludedPendingRefresh
    case other => other
  }

  function IncludedStatus(status: Status): Status {
    match status
    case Excluded => Active
    case ExcludedPendingRefresh => PendingRefresh
    case other => other
  }

  function SetStatus(s: Session, card: int, status: Status): Session
    requires s.Coherent() && card in s.live
  {
    var i := s.live[card];
    s.(slots := s.slots[i := s.slots[i].(status := status)], generation := s.generation + 1)
  }

  function ExcludeCard(s: Session, card: int): Result<Session, LiveError>
    requires s.Coherent()
  {
    if card !in s.live then Err(UnknownCard(card))
    else Ok(SetStatus(s, card, ExcludedStatus(s.slots[s.live[card]].status)))
  }

  function IncludeCard(s: Session, card: int): Result<Session, LiveError>
    requires s.Coherent()
  {
    if card !in s.live then Err(UnknownCard(card))
    else Ok(SetStatus(s, card, IncludedStatus(s.slots[s.live[card]].status)))
  }

  /** Only the index forgets the card; its slot stays behind. */
  function RemoveCandidate(s: Session, card: int): Result<Session, LiveError> {
    if card !in s.live then Err(UnknownCard(card))
    else Ok(s.(live := s.live - {card}, generation := s.generation + 1))
  }

  function UpsertStatus(existing: Status): Status {
    if existing == Excluded || existing == ExcludedPendingRefresh then ExcludedPendingRefresh else PendingRefresh
  }

  function UpsertOne(s: Session, c: Candidate): Session
    requires s.Coherent()
  {
    if c.Card() in s.live then
      var i := s.live[c.Card()];
      s.(slots := s.slots[i := c.(status := UpsertStatus(s.slots[i].status), slot := i)])
    else
      s.(slots := s.slots + [c.(status := PendingRefresh, slot := |s.slots|)], live := s.live[c.Card() := |s.slots|])
  }

  function UpsertAll(s: Session, cs: seq<Candidate>, k: nat): (t: Session)
    requires s.Coherent() && k <= |cs|
    ensures t.Coherent()
  {
    if k == 0 then s else UpsertOne(UpsertAll(s, cs, k - 1), cs[k - 1])
  }

  function UpsertCandidates(s: Session, seeds: seq<Seed>): Result<Session, LiveError>
    requires s.Coherent()
  {
    match DuplicateOf(Mapped(seeds, SeedCard()))
    case Some(card) => Err(DuplicateCard(card))
    case None =>
      match FromSeeds(seeds, s.targetTimestamp, s.targetDay, |seeds|)
      case Err(e) => Err(e)
      case Ok(cs) =>
        var t := UpsertAll(s, cs, |cs|);
        Ok(t.(generation := t.generation + 1))
  }

  function ReplaceCandidates(s: Session, seeds: seq<Seed>): Result<Session, LiveError> {
    match DuplicateOf(Mapped(seeds, SeedCard()))
    case Some(card) => Err(DuplicateCard(card))
    case None =>
      match FromSeeds(seeds, s.targetTimestamp, s.targetDay, |seeds|)
      case Err(e) => Err(e)
      case Ok(cs) =>
        match Predicted(s.cfg, RowsAt(cs, s.targetTimestamp, s.targetDay))
        case Err(e) => Err(e)
        case Ok(predictions) =>
            Ok(s.(slots := Activated(cs, predictions), live := Index(cs), generation := s.generation + 1))
  }

  function SetRetentionExtra(s: Session, extra: int): Session {
    s.(extra := extra, generation := s.generation + 1)
  }
}
