/**
 Incremental reconciliation against full reconciliation, and the proof that the fields in which the
 two may differ are never read again.
 */
module LiveReconcile {
  import opened Wrappers
  import opened Lists
  import opened LiveSpec
  import opened ReviewRows
  import opened LiveRanking
  import opened LiveInvariant

  // ----- What a card with a prior review never reads -----

  /** The candidate with the initial elapsed values of a reviewed card blanked. */
  function Erased(c: Candidate): Candidate {
    if c.anchor.Some? then c.(newElapsedDays := 0.0, newElapsedSeconds := 0.0) else c
  }

  function Erase(): Candidate -> Candidate {
    (c: Candidate) => Erased(c)
  }

  function ErasedSession(s: Session): Session {
    s.(slots := Mapped(s.slots, Erase()))
  }

  /** Two sessions that differ at most in the initial elapsed values of reviewed cards. */
  ghost predicate Similar(s: Session, t: Session) {
    ErasedSession(s) == ErasedSession(t)
  }

  // ----- Incremental and full reconciliation -----

  /** The seed a caller would send for a kept candidate: its current elapsed values, identities, targets and keys. */
  function Reseed(c: Candidate, timestamp: real, day: real): Seed {
    var (days, seconds) := ElapsedAt(c, timestamp, day);
    Seed(c.id, days, seconds, c.normalTarget, c.intradayTarget, c.tieBreaker, c.randomKey)
  }

  function FullSeed(s: Session, changed: seq<Seed>, timestamp: real, day: real, card: int): Seed
    requires s.Coherent() && (SeedFor(changed, card).None? ==> card in s.live)
  {
    match SeedFor(changed, card)
    case Some(seed) => seed
    case None => Reseed(s.slots[s.live[card]], timestamp, day)
  }

  ghost predicate AllKnown(s: Session, ids: seq<int>, changed: seq<Seed>) {
    forall i :: 0 <= i < |ids| ==> SeedFor(changed, ids[i]).None? ==> ids[i] in s.live
  }

  /** The complete seed list that corresponds to an incremental call. */
  function FullSeeds(s: Session, ids: seq<int>, changed: seq<Seed>, timestamp: real, day: real): (r: seq<Seed>)
    requires s.Coherent() && AllKnown(s, ids, changed)
    ensures |r| == |ids| && forall i :: 0 <= i < |ids| ==> r[i] == FullSeed(s, changed, timestamp, day, ids[i])
  {
    seq(|ids|, i requires 0 <= i < |ids| => FullSeed(s, changed, timestamp, day, ids[i]))
  }

  predicate TargetNotBefore(c: Candidate, timestamp: real, day: real) {
    c.anchor.Some? ==> c.anchor.value.timestamp <= timestamp && c.anchor.value.day <= day
  }

  /** The target time does not lie before the last review of any kept card. */
  ghost predicate NotBeforeKeptAnchors(s: Session, ids: seq<int>, changed: seq<Seed>, timestamp: real, day: real)
    requires s.Coherent() && AllKnown(s, ids, changed)
  {
    forall i :: 0 <= i < |ids| && SeedFor(changed, ids[i]).None? ==>
        TargetNotBefore(s.slots[s.live[ids[i]]], timestamp, day)
  }

  /** Reseeding a kept card rebuilds it exactly when the target is not before its last review. */
  lemma ReseedRebuildsIff(c: Candidate, timestamp: real, day: real, slot: nat)
    requires Anchored(c)
    ensures var built := CandidateFromSeed(Reseed(c, timestamp, day), timestamp, day, slot);
      (built.Ok? && Erased(built.value) == Erased(Kept(c, timestamp, day, slot))) <==>
          TargetNotBefore(c, timestamp, day)
    ensures var built := CandidateFromSeed(Reseed(c, timestamp, day), timestamp, day, slot);
      built.Ok? && !TargetNotBefore(c, timestamp, day) ==> built.value.anchor == None && c.anchor.Some?
  {
  }

  lemma {:induction false} ReconciledKnown(s: Session, ids: seq<int>, changed: seq<Seed>, timestamp: real, day: real,
                                           k: nat)
    requires s.Coherent() && k <= |ids| && Reconciled(s, ids, changed, timestamp, day, k).Ok?
    ensures AllKnown(s, ids[..k], changed)
    ensures var cs := Reconciled(s, ids, changed, timestamp, day, k).value;
      forall i :: 0 <= i < k ==>
        match SeedFor(changed, ids[i])
        case Some(seed) => CandidateFromSeed(seed, timestamp, day, i) == Ok(cs[i])
        case None => cs[i] == Kept(s.slots[s.live[ids[i]]], timestamp, day, i)
  {
    if k > 0 {
      ReconciledKnown(s, ids, changed, timestamp, day, k - 1);
      assert ids[..k][..k - 1] == ids[..k - 1];
      forall i | 0 <= i < k && SeedFor(changed, ids[..k][i]).None? ensures ids[..k][i] in s.live {
        if i < k - 1 {
          assert ids[..k][i] == ids[..k - 1][i];
        }
      }
    }
  }

  /** The full path builds the first `k` candidates alike as long as no kept card lies ahead of the target. */
  lemma {:induction false} FullBuildsAlike(s: Session, ids: seq<int>, changed: seq<Seed>, timestamp: real, day: real,
                                           k: nat)
    requires Inv(s) && AllKnown(s, ids, changed) && k <= |ids|
    requires Reconciled(s, ids, changed, timestamp, day, |ids|).Ok?
    requires NotBeforeKeptAnchors(s, ids, changed, timestamp, day)
    ensures var cs := Reconciled(s, ids, changed, timestamp, day, |ids|).value;
      var built := FromSeeds(FullSeeds(s, ids, changed, timestamp, day), timestamp, day, k);
      built.Ok? && forall i :: 0 <= i < k ==> Erased(built.value[i]) == Erased(cs[i])
  {
    if k > 0 {
      FullBuildsAlike(s, ids, changed, timestamp, day, k - 1);
      ReconciledKnown(s, ids, changed, timestamp, day, |ids|);
      assert ids[..|ids|] == ids;
      var i := k - 1;
      if SeedFor(changed, ids[i]).None? {
        ReseedRebuildsIff(s.slots[s.live[ids[i]]], timestamp, day, i);
      }
    }
  }

  // Only erased fields reach rows, predictions, cards and the index.

  lemma SameErasedRows(cs: seq<Candidate>, ds: seq<Candidate>)
    requires |cs| == |ds| && forall i :: 0 <= i < |cs| ==> Erased(cs[i]) == Erased(ds[i])
    ensures InitialRows(cs) == InitialRows(ds) && Cards(cs) == Cards(ds)
  {
    forall i | 0 <= i < |cs|
      ensures InitialPredictionRow(cs[i]) == InitialPredictionRow(ds[i]) && cs[i].Card() == ds[i].Card()
    {
      assert InitialPredictionRow(Erased(cs[i])) == InitialPredictionRow(cs[i]);
      assert InitialPredictionRow(Erased(ds[i])) == InitialPredictionRow(ds[i]);
    }
  }

  lemma {:induction false} SameCardsSameIndex(cs: seq<Candidate>, ds: seq<Candidate>)
    requires |cs| == |ds| && forall i :: 0 <= i < |cs| ==> cs[i].Card() == ds[i].Card()
    ensures Index(cs) == Index(ds)
  {
    if cs != [] {
      SameCardsSameIndex(cs[..|cs| - 1], ds[..|ds| - 1]);
    }
  }

  lemma InstallIgnoresErased(s: Session, cs: seq<Candidate>, ds: seq<Candidate>, timestamp: real, day: real, extra: int)
    requires |cs| == |ds| && forall i :: 0 <= i < |cs| ==> Erased(cs[i]) == Erased(ds[i])
    ensures var a, b := Install(s, cs, timestamp, day, extra), Install(s, ds, timestamp, day, extra);
      a.Ok? == b.Ok? && (a.Ok? ==> Similar(a.value, b.value)) && (a.Err? ==> a.error == b.error)
  {
    SameErasedRows(cs, ds);
    forall i | 0 <= i < |cs| ensures cs[i].Card() == ds[i].Card() {
      assert Cards(cs)[i] == Cards(ds)[i];
    }
    SameCardsSameIndex(cs, ds);
    var r := Predicted(s.cfg, InitialRows(cs));
    if r.Ok? {
      var xs, ys := Activated(cs, r.value), Activated(ds, r.value);
      forall i | 0 <= i < |cs| ensures Erased(xs[i]) == Erased(ys[i]) {
        assert Erased(xs[i]) == Erased(cs[i]).(prediction := r.value[i], status := Active);
        assert Erased(ys[i]) == Erased(ds[i]).(prediction := r.value[i], status := Active);
      }
      assert Mapped(xs, Erase()) == Mapped(ys, Erase());
    }
  }

  lemma FullSeedCards(s: Session, ids: seq<int>, changed: seq<Seed>, timestamp: real, day: real)
    requires s.Coherent() && AllKnown(s, ids, changed)
    ensures Mapped(FullSeeds(s, ids, changed, timestamp, day), SeedCard()) == ids
  {
  }

  /**
   A successful incremental reconciliation installs what full reconciliation would, up to fields never
   read again, exactly when the target is not before the last review of any kept card.
   */
  lemma IncrementalRefinesFull(s: Session, ids: seq<int>, changed: seq<Seed>, timestamp: real, day: real, extra: int)
    requires Inv(s) && ReconcileMembership(s, ids, changed, timestamp, day, extra).Ok?
    ensures AllKnown(s, ids, changed)
    ensures var incremental := ReconcileMembership(s, ids, changed, timestamp, day, extra).value;
      var full := ReconcileCandidates(s, FullSeeds(s, ids, changed, timestamp, day), timestamp, day, extra);
      (full.Ok? && Similar(incremental, full.value)) <==> NotBeforeKeptAnchors(s, ids, changed, timestamp, day)
  {
    ReconciledKnown(s, ids, changed, timestamp, day, |ids|);
    assert ids[..|ids|] == ids;
    var cs := Reconciled(s, ids, changed, timestamp, day, |ids|).value;
    var seeds := FullSeeds(s, ids, changed, timestamp, day);
    FullSeedCards(s, ids, changed, timestamp, day);
    if NotBeforeKeptAnchors(s, ids, changed, timestamp, day) {
      FullBuildsAlike(s, ids, changed, timestamp, day, |ids|);
      InstallIgnoresErased(s, cs, FromSeeds(seeds, timestamp, day, |seeds|).value, timestamp, day, extra);
    } else if ReconcileCandidates(s, seeds, timestamp, day, extra).Ok? {
      BeforeAnchorDiffers(s, ids, changed, timestamp, day, extra);
    }
  }

  lemma BeforeAnchorDiffers(s: Session, ids: seq<int>, changed: seq<Seed>, timestamp: real, day: real, extra: int)
    requires Inv(s) && ReconcileMembership(s, ids, changed, timestamp, day, extra).Ok? && AllKnown(s, ids, changed)
    requires !NotBeforeKeptAnchors(s, ids, changed, timestamp, day)
    requires ReconcileCandidates(s, FullSeeds(s, ids, changed, timestamp, day), timestamp, day, extra).Ok?
    ensures !Similar(ReconcileMembership(s, ids, changed, timestamp, day, extra).value,
                     ReconcileCandidates(s, FullSeeds(s, ids, changed, timestamp, day), timestamp, day, extra).value)
  {
    var seeds := FullSeeds(s, ids, changed, timestamp, day);
    var cs, ds := Reconciled(s, ids, changed, timestamp, day, |ids|).value,
        FromSeeds(seeds, timestamp, day, |seeds|).value;
    var i: nat :| i < |ids| && SeedFor(changed, ids[i]).None?
        && !TargetNotBefore(s.slots[s.live[ids[i]]], timestamp, day);
    assert cs[i].anchor.Some? by {
      ReconciledKnown(s, ids, changed, timestamp, day, |ids|);
    }
    assert ds[i].anchor.None? by {
      FromSeedsBuilds(seeds, timestamp, day, |seeds|);
      ReseedRebuildsIff(s.slots[s.live[ids[i]]], timestamp, day, i);
    }
    InstalledApart(s, cs, ds, timestamp, day, extra, i);
  }

  /** Candidates of which one has a review and the other none stay apart once installed. */
  lemma InstalledApart(s: Session, cs: seq<Candidate>, ds: seq<Candidate>, timestamp: real, day: real, extra: int,
                       i: nat)
    requires i < |cs| == |ds| && cs[i].anchor.Some? && ds[i].anchor.None?
    requires Install(s, cs, timestamp, day, extra).Ok? && Install(s, ds, timestamp, day, extra).Ok?
    ensures !Similar(Install(s, cs, timestamp, day, extra).value, Install(s, ds, timestamp, day, extra).value)
  {
    var a, b := Install(s, cs, timestamp, day, extra).value, Install(s, ds, timestamp, day, extra).value;
    assert ErasedSession(a).slots[i].anchor == a.slots[i].anchor == cs[i].anchor;
    assert ErasedSession(b).slots[i].anchor == b.slots[i].anchor == ds[i].anchor;
  }

  // ----- A kept card reviewed after the target -----

  /** A session with one card, reviewed 100 seconds and 5 days before time 1000 on day 10. */
  function OneCard(): Session {
    var line := FloatLine(100, 1, (a: int, b: int) => a + b, (a: int, b: int) => a - b, (a: int, b: int) => None);
    var predict := (rows: seq<Row>) => Some(seq(|rows|, _ => Finite(0)));
    var c := Candidate(Identity(1, 1, Missing, Missing, Missing), Some(Anchor(900.0, 5.0)), 5.0, 100.0, 1000.0, 10.0,
                       100.0, 5.0, Finite(0), Finite(90), Finite(90), 0, 0, Active, 0);
    Session(Config(Random, 1, line, predict), 1000.0, 10.0, 0, 1, [c], map[1 := 0], [], [])
  }

  lemma OneSeed(cfg: Config, seed: Seed, timestamp: real, day: real)
    ensures DuplicateOf(Mapped([seed], SeedCard())) == None
    ensures match CandidateFromSeed(seed, timestamp, day, 0)
      case Err(e) => FromSeeds([seed], timestamp, day, 1) == Err(e)
      case Ok(c) => FromSeeds([seed], timestamp, day, 1) == Ok([c])
  {
    var none, cards := 0, Mapped([seed], SeedCard());
    assert |cards| == 1 && cards[..|cards| - 1] == [];
    assert FromSeeds([seed], timestamp, day, none) == Ok([]);
    assert FromSeeds([seed], timestamp, day, none + 1) == FromSeeds([seed], timestamp, day, 1);
    assert forall c: Candidate :: [] + [c] == [c];
  }

  lemma OneCardPredicts(c: Candidate)
    ensures Predicted(OneCard().cfg, InitialRows([c])) == Ok([Finite(0)])
  {
    assert OneCard().cfg.predict(InitialRows([c])).value == [Finite(0)];
  }

  lemma OneCardInv()
    ensures Inv(OneCard())
  {
  }

  /** The session is the one started from its card's seed. */
  lemma OneCardStarts()
    ensures Start(OneCard().cfg, [Reseed(OneCard().slots[0], 1000.0, 10.0)], 1000.0, 10.0).Ok?
    ensures Start(OneCard().cfg, [Reseed(OneCard().slots[0], 1000.0, 10.0)], 1000.0, 10.0).value == OneCard()
  {
    var c := OneCard().slots[0];
    var seed, built := Reseed(c, 1000.0, 10.0), c.(prediction := NonFinite, status := PendingRefresh);
    OneSeed(OneCard().cfg, seed, 1000.0, 10.0);
    assert CandidateFromSeed(seed, 1000.0, 10.0, 0) == Ok(built);
    OneCardPredicts(built);
    assert Activated([built], [Finite(0)]) == [c];
    assert Index([built]) == map[1 := 0] by {
      assert [built][..0] == [];
    }
  }

  lemma OneCardOnce(card: int)
    ensures DuplicateOf([card]) == None
  {
    assert [card][..|[card]| - 1] == [];
  }

  /** Both reconciliations of the one card, without changed seeds. */
  lemma OneCardReconciles(timestamp: real, day: real)
    requires Inv(OneCard())
    ensures AllKnown(OneCard(), [1], []) && ReconcileMembership(OneCard(), [1], [], timestamp, day, 0).Ok?
    ensures var full := ReconcileCandidates(OneCard(), FullSeeds(OneCard(), [1], [], timestamp, day), timestamp, day,
                                            0);
      match CandidateFromSeed(Reseed(OneCard().slots[0], timestamp, day), timestamp, day, 0)
      case Err(e) => full == Err(e)
      case Ok(_) => full.Ok?
    ensures NotBeforeKeptAnchors(OneCard(), [1], [], timestamp, day) <==>
        TargetNotBefore(OneCard().slots[0], timestamp, day)
  {
    var s, none := OneCard(), 0;
    var c, changed: seq<Seed> := s.slots[0], [];
    OneCardOnce(1);
    assert Mapped(changed, SeedCard()) == [];
    assert Reconciled(s, [1], changed, timestamp, day, none) == Ok([]);
    assert [] + [Kept(c, timestamp, day, 0)] == [Kept(c, timestamp, day, 0)];
    assert Reconciled(s, [1], changed, timestamp, day, none + 1) == Ok([Kept(c, timestamp, day, 0)]);
    OneCardPredicts(Kept(c, timestamp, day, 0));
    var seed := Reseed(c, timestamp, day);
    assert FullSeeds(s, [1], changed, timestamp, day) == [seed];
    OneSeed(s.cfg, seed, timestamp, day);
    var built := CandidateFromSeed(seed, timestamp, day, 0);
    if built.Ok? {
      OneCardPredicts(built.value);
    }
    assert SeedFor(changed, [1][0]).None?;
  }

  /** A target a second and a day before the review: the full path takes the reviewed card for a new one. */
  lemma TargetBeforeReviewForgetsReview()
    ensures Inv(OneCard()) && AllKnown(OneCard(), [1], [])
    ensures ReconcileMembership(OneCard(), [1], [], 899.0, 4.0, 0).Ok?
    ensures var full := ReconcileCandidates(OneCard(), FullSeeds(OneCard(), [1], [], 899.0, 4.0), 899.0, 4.0, 0);
      full.Ok? && !Similar(ReconcileMembership(OneCard(), [1], [], 899.0, 4.0, 0).value, full.value)
  {
    OneCardInv();
    OneCardReconciles(899.0, 4.0);
    BeforeAnchorDiffers(OneCard(), [1], [], 899.0, 4.0, 0);
  }

  /** An earlier target: the full path refuses what the incremental one installs. */
  lemma TargetBeforeReviewIsRefused()
    ensures Inv(OneCard()) && AllKnown(OneCard(), [1], [])
    ensures ReconcileMembership(OneCard(), [1], [], 800.0, 3.0, 0).Ok?
    ensures ReconcileCandidates(OneCard(), FullSeeds(OneCard(), [1], [], 800.0, 3.0), 800.0, 3.0, 0)
        == Err(NegativeElapsed)
  {
    OneCardInv();
    OneCardReconciles(800.0, 3.0);
  }
}
