/** The mutable candidate objects of a live session and the loops over lists of them. */
module LiveObjects {
  import opened Wrappers
  import opened Lists
  import opened LiveSpec
  import opened LiveRanking
  import opened LiveInvariant

  class ReferenceCandidate {
    const id: Identity
    const anchor: Option<Anchor>
    const newElapsedDays: real
    const newElapsedSeconds: real
    const normalTarget: Num
    const intradayTarget: Num
    const tieBreaker: nat
    const randomKey: nat
    var queryTimestamp: real
    var queryDay: real
    var elapsedSeconds: real
    var elapsedDays: real
    var prediction: Num
    var status: Status
    var slot: nat

    function Value(): Candidate
      reads this
    {
      Candidate(id, anchor, newElapsedDays, newElapsedSeconds, queryTimestamp, queryDay, elapsedSeconds, elapsedDays,
                prediction, normalTarget, intradayTarget, tieBreaker, randomKey, status, slot)
    }

    constructor (c: Candidate)
      ensures Value() == c
    {
      id, anchor, newElapsedDays, newElapsedSeconds := c.id, c.anchor, c.newElapsedDays, c.newElapsedSeconds;
      normalTarget, intradayTarget, tieBreaker, randomKey := c.normalTarget, c.intradayTarget, c.tieBreaker,
          c.randomKey;
      queryTimestamp, queryDay, elapsedSeconds, elapsedDays := c.queryTimestamp, c.queryDay, c.elapsedSeconds,
          c.elapsedDays;
      prediction, status, slot := c.prediction, c.status, c.slot;
    }

    /** A prediction made at a target time settles the candidate. */
    method TakePrediction(timestamp: real, day: real, row: Row, value: Num)
      requires row == PredictionRow(Value(), timestamp, day)
      modifies this
      ensures Value() == Refreshed(old(Value()), timestamp, day, value)
    {
      prediction := value;
      queryTimestamp := timestamp;
      queryDay := day;
      elapsedDays := row.elapsedDays;
      elapsedSeconds := row.elapsedSeconds;
      if status == PendingRefresh {
        status := Active;
      } else if status == ExcludedPendingRefresh {
        status := Excluded;
      }
    }
  }

  ghost function Values(cs: seq<ReferenceCandidate>): (r: seq<Candidate>)
    reads cs
    ensures |r| == |cs| && forall i :: 0 <= i < |cs| ==> r[i] == cs[i].Value()
  {
    seq(|cs|, i requires 0 <= i < |cs| reads cs => cs[i].Value())
  }

  lemma {:induction false} InsertAt<T>(x: T, ys: seq<T>, less: (T, T) -> bool, j: nat)
    requires j <= |ys| && (forall i :: 0 <= i < j ==> !less(x, ys[i])) && (j < |ys| ==> less(x, ys[j]))
    ensures InsertBy(x, ys, less) == ys[..j] + [x] + ys[j..]
  {
    if j > 0 {
      InsertAt(x, ys[1..], less, j - 1);
      SplitTail(ys, j);
      PrependAssociates(ys[0], ys[1..][..j - 1], x, ys[1..][j - 1..]);
    } else {
      assert ys[..0] + [x] + ys[0..] == [x] + ys;
    }
  }

  lemma ValuesSnoc(cs: seq<ReferenceCandidate>, c: ReferenceCandidate)
    ensures Values(cs + [c]) == Values(cs) + [c.Value()]
  {
  }

  method InsertObject(c: ReferenceCandidate, sorted: seq<ReferenceCandidate>, less: (Candidate, Candidate) -> bool)
    returns (r: seq<ReferenceCandidate>)
    ensures Values(r) == InsertBy(c.Value(), Values(sorted), less)
    ensures forall d :: d in r ==> d == c || d in sorted
  {
    var j := 0;
    while j < |sorted| && !less(c.Value(), sorted[j].Value())
      invariant j <= |sorted|
      invariant forall i :: 0 <= i < j ==> !less(c.Value(), sorted[i].Value())
    {
      j := j + 1;
    }
    r := sorted[..j] + [c] + sorted[j..];
    InsertAt(c.Value(), Values(sorted), less, j);
  }

  method SortObjects(cs: seq<ReferenceCandidate>, less: (Candidate, Candidate) -> bool)
    returns (r: seq<ReferenceCandidate>)
    ensures Values(r) == SortBy(Values(cs), less)
    ensures forall d :: d in r ==> d in cs
  {
    r := [];
    for k := 0 to |cs|
      invariant Values(r) == SortBy(Values(cs)[..k], less)
      invariant forall d :: d in r ==> d in cs
    {
      assert Values(cs)[..k + 1][..k] == Values(cs)[..k];
      r := InsertObject(cs[k], r, less);
    }
    assert Values(cs)[..|cs|] == Values(cs);
  }

  method FilterObjects(cs: seq<ReferenceCandidate>, p: Candidate -> bool) returns (r: seq<ReferenceCandidate>)
    ensures Values(r) == Filter(Values(cs), p)
    ensures forall d :: d in r ==> d in cs
  {
    r := [];
    for k := 0 to |cs|
      invariant Values(r) == Filter(Values(cs)[..k], p)
      invariant forall d :: d in r ==> d in cs
    {
      assert Values(cs)[..k + 1] == Values(cs)[..k] + [cs[k].Value()];
      FilterSnoc(Values(cs)[..k], cs[k].Value(), p);
      if p(cs[k].Value()) {
        ValuesSnoc(r, cs[k]);
        r := r + [cs[k]];
      }
    }
    assert Values(cs)[..|cs|] == Values(cs);
  }

  /** The search for the next extra: a rounded start, then one float at a time. */
  method FindBoundary(line: FloatLine, extra: int, c: ReferenceCandidate) returns (r: Option<int>)
    requires line.Sound()
    ensures r == NextBoundary(line, extra, c.Value())
  {
    if c.status != Active {
      return None;
    }
    var target := Target(c.Value());
    if c.prediction.NonFinite? || target.NonFinite? || c.prediction.value >= line.one {
      return None;
    }
    var p, t := c.prediction.value, target.value;
    var required := line.Minus(p + 1, t);
    if required <= line.Minus(p, t) {
      required := required + 1;
    }
    ghost var start := required;
    ghost var first := FirstAbove(line, p, t, start);
    while p >= Threshold(line, t, required)
      invariant start <= required <= first
      invariant forall x :: start <= x < required ==> p >= Threshold(line, t, x)
      decreases first - required
    {
      required := required + 1;
    }
    FirstAboveUnique(line, p, t, start, required, first);
    return if required > extra then Some(required) else None;
  }

  method RowsFor(cs: seq<ReferenceCandidate>, timestamp: real, day: real) returns (rows: seq<Row>)
    ensures rows == RowsAt(Values(cs), timestamp, day)
  {
    rows := [];
    for k := 0 to |cs|
      invariant |rows| == k && forall i :: 0 <= i < k ==> rows[i] == PredictionRow(cs[i].Value(), timestamp, day)
    {
      rows := rows + [PredictionRow(cs[k].Value(), timestamp, day)];
    }
  }

  method InitialRowsFor(cs: seq<ReferenceCandidate>) returns (rows: seq<Row>)
    ensures rows == InitialRows(Values(cs))
  {
    rows := [];
    for k := 0 to |cs|
      invariant |rows| == k && forall i :: 0 <= i < k ==> rows[i] == InitialPredictionRow(cs[i].Value())
    {
      rows := rows + [InitialPredictionRow(cs[k].Value())];
    }
  }

  method FindDuplicate(cards: seq<int>) returns (r: Option<int>)
    ensures r == DuplicateOf(cards)
  {
    var seen := {};
    for k := 0 to |cards|
      invariant DuplicateOf(cards[..k]) == None
      invariant forall card :: card in seen <==> card in cards[..k]
    {
      assert cards[..k + 1][..k] == cards[..k];
      if cards[k] in seen {
        DuplicateStays(cards, k + 1, cards[k]);
        return Some(cards[k]);
      }
      assert cards[..k + 1][k] == cards[k] && cards[k] !in cards[..k];
      seen := seen + {cards[k]};
    }
    assert cards[..|cards|] == cards;
    return None;
  }

  lemma DuplicateStays(cards: seq<int>, k: nat, card: int)
    requires k <= |cards| && DuplicateOf(cards[..k]) == Some(card)
    ensures DuplicateOf(cards) == Some(card)
    decreases |cards| - k
  {
    if k < |cards| {
      assert cards[..k + 1][..k] == cards[..k];
      DuplicateStays(cards, k + 1, card);
    } else {
      assert cards[..k] == cards;
    }
  }

  lemma FromSeedsErrorStays(seeds: seq<Seed>, timestamp: real, day: real, k: nat, e: LiveError)
    requires k <= |seeds| && FromSeeds(seeds, timestamp, day, k) == Err(e)
    ensures FromSeeds(seeds, timestamp, day, |seeds|) == Err(e)
    decreases |seeds| - k
  {
    if k < |seeds| {
      FromSeedsErrorStays(seeds, timestamp, day, k + 1, e);
    }
  }

  /** Every object knows its position. */
  ghost predicate InOrder(cs: seq<ReferenceCandidate>)
    reads cs
  {
    forall i :: 0 <= i < |cs| ==> cs[i].slot == i
  }

  method BuildFromSeeds(seeds: seq<Seed>, timestamp: real, day: real)
    returns (r: Result<seq<ReferenceCandidate>, LiveError>)
    ensures match FromSeeds(seeds, timestamp, day, |seeds|)
      case Err(e) => r == Err(e)
      case Ok(cs) => r.Ok? && Values(r.value) == cs && InOrder(r.value) && fresh(r.value)
  {
    var cs := [];
    for k := 0 to |seeds|
      invariant FromSeeds(seeds, timestamp, day, k) == Ok(Values(cs)) && InOrder(cs)
      invariant fresh(cs)
    {
      var built := CandidateFromSeed(seeds[k], timestamp, day, |cs|);
      if built.Err? {
        FromSeedsErrorStays(seeds, timestamp, day, k + 1, built.error);
        return Err(built.error);
      }
      var c := new ReferenceCandidate(built.value);
      ValuesSnoc(cs, c);
      cs := cs + [c];
    }
    return Ok(cs);
  }

  /** Candidates for a list of seeds that names no card twice. */
  method Admit(seeds: seq<Seed>, timestamp: real, day: real) returns (r: Result<seq<ReferenceCandidate>, LiveError>)
    ensures match DuplicateOf(Mapped(seeds, SeedCard()))
      case Some(card) => r == Err(DuplicateCard(card))
      case None =>
        match FromSeeds(seeds, timestamp, day, |seeds|)
        case Err(e) => r == Err(e)
        case Ok(cs) => r.Ok? && Values(r.value) == cs && InOrder(r.value) && fresh(r.value)
  {
    var cards := SeedCards(seeds);
    var duplicate := FindDuplicate(cards);
    if duplicate.Some? {
      return Err(DuplicateCard(duplicate.value));
    }
    r := BuildFromSeeds(seeds, timestamp, day);
  }

  /** The predictions for candidates at a target time. */
  method PredictAt(cfg: Config, cs: seq<ReferenceCandidate>, timestamp: real, day: real)
    returns (r: Result<seq<Num>, LiveError>)
    ensures r == Predicted(cfg, RowsAt(Values(cs), timestamp, day))
  {
    var rows := RowsFor(cs, timestamp, day);
    r := Predicted(cfg, rows);
  }

  method PredictInitially(cfg: Config, cs: seq<ReferenceCandidate>) returns (r: Result<seq<Num>, LiveError>)
    ensures r == Predicted(cfg, InitialRows(Values(cs)))
  {
    var rows := InitialRowsFor(cs);
    r := Predicted(cfg, rows);
  }

  /** Every new candidate takes its prediction and becomes active. */
  method Activate(cs: seq<ReferenceCandidate>, predictions: seq<Num>)
    requires |predictions| == |cs| && InOrder(cs)
    modifies cs
    ensures InOrder(cs)
    ensures Values(cs) == Activated(old(Values(cs)), predictions)
  {
    for k := 0 to |cs|
      invariant InOrder(cs)
      invariant forall i :: 0 <= i < k ==>
          cs[i].Value() == old(cs[i].Value()).(prediction := predictions[i], status := Active)
      invariant forall i :: k <= i < |cs| ==> cs[i].Value() == old(cs[i].Value())
    {
      cs[k].prediction := predictions[k];
      cs[k].status := Active;
    }
  }

  lemma IndexSnoc(values: seq<Candidate>, k: nat)
    requires k < |values|
    ensures Index(values[..k + 1]) == Index(values[..k])[values[k].Card() := k]
  {
    assert values[..k + 1][..k] == values[..k];
  }

  method IndexObjects(cs: seq<ReferenceCandidate>) returns (index: map<int, ReferenceCandidate>)
    ensures index.Keys == Index(Values(cs)).Keys
    ensures forall card :: card in index ==> index[card] == cs[Index(Values(cs))[card]]
  {
    index := map[];
    ghost var values := Values(cs);
    for k := 0 to |cs|
      invariant index.Keys == Index(values[..k]).Keys
      invariant forall card :: card in index ==> index[card] == cs[Index(values[..k])[card]]
    {
      IndexSnoc(values, k);
      index := index[cs[k].id.cardId := cs[k]];
    }
    assert values[..|cs|] == values;
  }

  method CardsOf(cs: seq<ReferenceCandidate>) returns (cards: seq<int>)
    ensures cards == Cards(Values(cs))
  {
    cards := [];
    for k := 0 to |cs|
      invariant |cards| == k && forall i :: 0 <= i < k ==> cards[i] == cs[i].id.cardId
    {
      cards := cards + [cs[k].id.cardId];
    }
  }

  method SeedCards(seeds: seq<Seed>) returns (cards: seq<int>)
    ensures cards == Mapped(seeds, SeedCard())
  {
    cards := [];
    for k := 0 to |seeds|
      invariant |cards| == k && forall i :: 0 <= i < k ==> cards[i] == seeds[i].id.cardId
    {
      cards := cards + [seeds[k].id.cardId];
    }
  }

  // ----- Reconciling a membership -----

  lemma UndesiredStays(changed: seq<Seed>, ids: seq<int>, k: nat, card: int)
    requires k <= |changed| && UndesiredOf(changed[..k], ids) == Some(card)
    ensures UndesiredOf(changed, ids) == Some(card)
    decreases |changed| - k
  {
    if k < |changed| {
      assert changed[..k + 1][..k] == changed[..k];
      UndesiredStays(changed, ids, k + 1, card);
    } else {
      assert changed[..k] == changed;
    }
  }

  method FindUndesired(changed: seq<Seed>, ids: seq<int>) returns (r: Option<int>)
    ensures r == UndesiredOf(changed, ids)
  {
    for k := 0 to |changed|
      invariant UndesiredOf(changed[..k], ids) == None
    {
      assert changed[..k + 1][..k] == changed[..k];
      if changed[k].id.cardId !in ids {
        UndesiredStays(changed, ids, k + 1, changed[k].id.cardId);
        return Some(changed[k].id.cardId);
      }
    }
    assert changed[..|changed|] == changed;
    return None;
  }

  method IndexSeeds(changed: seq<Seed>) returns (m: map<int, Seed>)
    ensures forall card :: SeedFor(changed, card) == if card in m then Some(m[card]) else None
  {
    m := map[];
    for k := 0 to |changed|
      invariant forall card :: SeedFor(changed[..k], card) == if card in m then Some(m[card]) else None
    {
      assert changed[..k + 1][..k] == changed[..k] && changed[..k + 1][k] == changed[k];
      m := m[changed[k].id.cardId := changed[k]];
    }
    assert changed[..|changed|] == changed;
  }

  lemma ReconciledErrorStays(s: Session, ids: seq<int>, changed: seq<Seed>, timestamp: real, day: real, k: nat,
                             e: LiveError)
    requires s.Coherent() && k <= |ids| && Reconciled(s, ids, changed, timestamp, day, k) == Err(e)
    ensures Reconciled(s, ids, changed, timestamp, day, |ids|) == Err(e)
    decreases |ids| - k
  {
    if k < |ids| {
      ReconciledErrorStays(s, ids, changed, timestamp, day, k + 1, e);
    }
  }

  lemma InOrderSnoc(cs: seq<ReferenceCandidate>, c: ReferenceCandidate)
    requires InOrder(cs) && c.slot == |cs|
    ensures InOrder(cs + [c])
  {
  }

  /** The next reconciled candidate: a changed seed, or the existing one with its anchor. */
  method BuildNext(ghost s: Session, index: map<int, ReferenceCandidate>, ids: seq<int>, ghost changed: seq<Seed>,
                   seed: Option<Seed>, timestamp: real, day: real, k: nat, ghost cs: seq<Candidate>)
    returns (r: Result<ReferenceCandidate, LiveError>)
    requires s.Coherent() && index.Keys == s.live.Keys && k < |ids|
    requires forall card :: card in index ==> index[card].Value() == s.slots[s.live[card]]
    requires Reconciled(s, ids, changed, timestamp, day, k) == Ok(cs) && seed == SeedFor(changed, ids[k])
    ensures r.Err? ==> Reconciled(s, ids, changed, timestamp, day, k + 1) == Err(r.error)
    ensures r.Ok? ==> fresh(r.value) && r.value.slot == k
    ensures r.Ok? ==> Reconciled(s, ids, changed, timestamp, day, k + 1) == Ok(cs + [r.value.Value()])
  {
    if seed.Some? {
      var built := CandidateFromSeed(seed.value, timestamp, day, k);
      if built.Err? {
        return Err(built.error);
      }
      var c := new ReferenceCandidate(built.value);
      return Ok(c);
    }
    if ids[k] !in index {
      return Err(UnknownCard(ids[k]));
    }
    var c := new ReferenceCandidate(Kept(index[ids[k]].Value(), timestamp, day, k));
    return Ok(c);
  }

  method BuildReconciled(ghost s: Session, index: map<int, ReferenceCandidate>, ids: seq<int>, changed: seq<Seed>,
                         timestamp: real, day: real)
    returns (r: Result<seq<ReferenceCandidate>, LiveError>)
    requires s.Coherent() && index.Keys == s.live.Keys
    requires forall card :: card in index ==> index[card].Value() == s.slots[s.live[card]]
    ensures match Reconciled(s, ids, changed, timestamp, day, |ids|)
      case Err(e) => r == Err(e)
      case Ok(cs) => r.Ok? && Values(r.value) == cs && InOrder(r.value) && fresh(r.value)
  {
    var seeds := IndexSeeds(changed);
    var cs := [];
    for k := 0 to |ids|
      invariant Reconciled(s, ids, changed, timestamp, day, k) == Ok(Values(cs)) && InOrder(cs)
      invariant fresh(cs)
    {
      var seed := if ids[k] in seeds then Some(seeds[ids[k]]) else None;
      var built := BuildNext(s, index, ids, changed, seed, timestamp, day, k, Values(cs));
      if built.Err? {
        ReconciledErrorStays(s, ids, changed, timestamp, day, k + 1, built.error);
        return Err(built.error);
      }
      ValuesSnoc(cs, built.value);
      InOrderSnoc(cs, built.value);
      cs := cs + [built.value];
    }
    return Ok(cs);
  }

  // ----- Scanning the ranking -----

  lemma RestStep(ranked: seq<Candidate>, p: Candidate -> bool, i: nat)
    requires i < |ranked|
    ensures Filter(ranked[..i + 1], p) == Filter(ranked[..i], p) + (if p(ranked[i]) then [ranked[i]] else [])
  {
    assert ranked[..i + 1] == ranked[..i] + [ranked[i]];
    FilterSnoc(ranked[..i], ranked[i], p);
  }

  lemma RestDone(head: seq<Candidate>, ranked: seq<Candidate>, p: Candidate -> bool, i: nat, limit: nat)
    requires i <= |ranked|
    requires var found := head + Filter(ranked[..i], p);
      |found| <= limit && (i == |ranked| || |found| == limit)
    ensures Take(limit, head + Filter(ranked, p)) == head + Filter(ranked[..i], p)
  {
    assert ranked == ranked[..i] + ranked[i..];
    FilterConcat(ranked[..i], ranked[i..], p);
  }

  method CardSet(cs: seq<ReferenceCandidate>) returns (cards: set<int>)
    ensures forall card :: card in cards <==> card in Cards(Values(cs))
  {
    cards := {};
    ghost var all := Cards(Values(cs));
    for k := 0 to |cs|
      invariant forall card :: card in cards <==> card in all[..k]
    {
      assert all[..k + 1] == all[..k] + [all[k]];
      cards := cards + {cs[k].id.cardId};
    }
    assert all[..|cs|] == all;
  }

  /** A scan down the ranking past the chosen cards, up to the limit. */
  method ScanRanking(ghost ranked: seq<Candidate>, ordered: seq<ReferenceCandidate>, pending: seq<ReferenceCandidate>,
                     limit: nat, refreshExcluded: set<int>)
    returns (membership: seq<ReferenceCandidate>)
    requires Values(ordered) == ranked && |pending| <= limit
    requires forall i, j :: 0 <= i < j < |ordered| ==> ordered[i].id.cardId != ordered[j].id.cardId
    ensures Values(membership)
         == Take(limit, Values(pending) + Filter(ranked, RestFilter(refreshExcluded, Cards(Values(pending)))))
    ensures forall c :: c in membership ==> c in pending || c in ordered
  {
    var chosen := CardSet(pending);
    ghost var pendingCards := Cards(Values(pending));
    ghost var p := RestFilter(refreshExcluded, pendingCards);
    var found := [];
    var i := 0;
    while i < |ordered| && |pending| + |found| < limit
      invariant i <= |ordered|
      invariant Values(found) == Filter(ranked[..i], p)
      invariant |pending| + |found| <= limit
      invariant forall c :: c in found ==> c in ordered
      invariant forall j :: i <= j < |ordered| ==>
          (ordered[j].id.cardId in chosen <==> ordered[j].id.cardId in pendingCards)
    {
      var c := ordered[i];
      assert ranked[i] == c.Value();
      RestStep(ranked, p, i);
      if !(c.id.cardId in refreshExcluded || c.id.cardId in chosen
          || (c.status != Active && c.status != PendingRefresh)) {
        ValuesSnoc(found, c);
        found := found + [c];
        chosen := chosen + {c.id.cardId};
      }
      i := i + 1;
    }
    membership := pending + found;
    ValuesConcat(pending, found);
    RestDone(Values(pending), ranked, p, i, limit);
  }

  lemma ValuesConcat(a: seq<ReferenceCandidate>, b: seq<ReferenceCandidate>)
    ensures Values(a + b) == Values(a) + Values(b)
  {
  }

  // ----- Taking predictions -----

  /** The transported objects take their predictions; every other object keeps its value. */
  method TakePredictions(ghost all: seq<ReferenceCandidate>, ghost values: seq<Candidate>,
                         transport: seq<ReferenceCandidate>,
                         rows: seq<Row>, predictions: seq<Num>, timestamp: real, day: real)
    requires InOrder(all)
    requires Values(transport) == values && InPlace(Values(all), values)
    requires forall j :: 0 <= j < |transport| ==> all[values[j].slot] == transport[j]
    requires rows == RowsAt(values, timestamp, day) && |predictions| == |rows|
    modifies transport
    ensures InOrder(all)
    ensures Values(all) == WriteBack(old(Values(all)), values, predictions, timestamp, day, |transport|)
  {
    ghost var before := Values(all);
    for k := 0 to |transport|
      invariant InOrder(all)
      invariant Values(all) == WriteBack(before, values, predictions, timestamp, day, k)
      invariant forall j :: k <= j < |transport| ==> transport[j].Value() == values[j]
    {
      TakeOne(all, values[k].slot, transport[k], rows[k], predictions[k], timestamp, day);
    }
  }

  method TakeOne(ghost all: seq<ReferenceCandidate>, ghost slot: nat, c: ReferenceCandidate, row: Row, prediction: Num,
                 timestamp: real, day: real)
    requires InOrder(all)
    requires slot < |all| && all[slot] == c && row == PredictionRow(c.Value(), timestamp, day)
    modifies c
    ensures InOrder(all)
    ensures Values(all) == old(Values(all))[slot := Refreshed(old(c.Value()), timestamp, day, prediction)]
  {
    assert forall i :: 0 <= i < |all| && i != slot ==> all[i] != c;
    c.TakePrediction(timestamp, day, row, prediction);
  }
}
