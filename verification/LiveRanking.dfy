/** The ranking is a strict total order, and the reported next boundary is where the eligible set next grows. */
module LiveRanking {
  import opened Wrappers
  import opened Lists
  import opened LiveSpec
  import opened ReviewRows

  // ----- A strict total order in all four modes -----

  lemma BeforeIsStrict(cfg: Config, extra: int)
    ensures StrictOrder(Before(cfg, extra))
  {
  }

  lemma BySlotIsStrict()
    ensures StrictOrder(BySlot())
  {
  }

  /** A live candidate is the one its slot holds. */
  lemma LiveIsItsSlot(s: Session, c: Candidate)
    requires s.Coherent() && c in s.LiveCandidates()
    ensures c.slot < |s.slots| && s.slots[c.slot] == c && c.Card() in s.live && s.live[c.Card()] == c.slot
  {
    FilterMembers(s.slots, s.LiveFilter());
    var i :| 0 <= i < |s.slots| && s.slots[i] == c;
  }

  lemma LiveCardsAreUnique(s: Session, a: Candidate, b: Candidate)
    requires s.Coherent() && a in s.LiveCandidates() && b in s.LiveCandidates() && a.Card() == b.Card()
    ensures a == b
  {
    LiveIsItsSlot(s, a);
    LiveIsItsSlot(s, b);
  }

  lemma LiveAreDistinct(s: Session)
    requires s.Coherent()
    ensures Distinct(s.LiveCandidates())
  {
    FilterDistinct(s.slots, s.LiveFilter());
  }

  /** Any two live candidates compare, whatever the mode: the card id breaks the last tie. */
  lemma LiveAreComparable(s: Session)
    requires s.Coherent()
    ensures Comparable(s.LiveCandidates(), Before(s.cfg, s.extra))
  {
    forall a, b | a in s.LiveCandidates() && b in s.LiveCandidates() && a != b
      ensures Before(s.cfg, s.extra)(a, b) || Before(s.cfg, s.extra)(b, a)
    {
      if a.Card() == b.Card() {
        LiveCardsAreUnique(s, a, b);
      }
    }
  }

  lemma RankedIsSorted(s: Session)
    requires s.Coherent()
    ensures SortedBy(s.Ranked(), Before(s.cfg, s.extra)) && Distinct(s.Ranked())
    ensures multiset(s.Ranked()) == multiset(s.LiveCandidates())
    ensures forall c :: c in s.Ranked() <==> c in s.LiveCandidates()
  {
    BeforeIsStrict(s.cfg, s.extra);
    LiveAreDistinct(s);
    LiveAreComparable(s);
    SortSorts(s.LiveCandidates(), Before(s.cfg, s.extra));
    SortedDistinct(s.Ranked(), Before(s.cfg, s.extra));
    SortPermutes(s.LiveCandidates(), Before(s.cfg, s.extra));
    RankedAreLive(s);
  }

  /** The ranking does not depend on the order in which the live candidates are listed. */
  lemma RankingIgnoresInsertionOrder(s: Session, listed: seq<Candidate>)
    requires s.Coherent() && Distinct(listed)
    requires forall c :: c in listed <==> c in s.LiveCandidates()
    ensures SortBy(listed, Before(s.cfg, s.extra)) == s.Ranked()
  {
    BeforeIsStrict(s.cfg, s.extra);
    LiveAreDistinct(s);
    LiveAreComparable(s);
    SortIndependent(s.LiveCandidates(), listed, Before(s.cfg, s.extra));
  }

  /** The live, active, not excluded, eligible candidates. */
  ghost predicate Selectable(s: Session, excluded: set<int>, c: Candidate) {
    && c in s.LiveCandidates()
    && (c.status == Active || c.status == PendingRefresh) && c.Card() !in excluded
    && Eligible(s.cfg.line, s.extra, c)
  }

  /** The selection is the first `k` of the one ascending list of the selectable candidates. */
  lemma SelectionIsFirstOfSelectable(s: Session, k: nat, excluded: set<int>, count: nat, ranked: seq<Candidate>)
    requires s.Coherent() && s.cfg.line.Sound()
    requires SortedBy(ranked, Before(s.cfg, s.extra))
    requires forall c :: c in ranked <==> Selectable(s, excluded, c)
    ensures SelectionResult(s, k, excluded, count).selected == Mapped(Take(k, ranked), Selected())
    ensures SelectionResult(s, k, excluded, count).eligibleCount == |ranked|
  {
    var less := Before(s.cfg, s.extra);
    var active := Filter(s.Ranked(), ActiveFilter(excluded));
    var eligible := Filter(active, EligibleFilter(s.cfg.line, s.extra));
    BeforeIsStrict(s.cfg, s.extra);
    RankedIsSorted(s);
    FilterSorted(s.Ranked(), ActiveFilter(excluded), less);
    FilterSorted(active, EligibleFilter(s.cfg.line, s.extra), less);
    FilterMembers(s.Ranked(), ActiveFilter(excluded));
    FilterMembers(active, EligibleFilter(s.cfg.line, s.extra));
    assert forall c :: c in eligible <==> Selectable(s, excluded, c);
    SortedUnique(eligible, ranked, less);
  }

  // ----- The next boundary -----

  /** Raising the extra never makes a candidate ineligible. */
  lemma EligibilityIsMonotone(line: FloatLine, c: Candidate, a: int, b: int)
    requires line.Sound() && a <= b && Eligible(line, a, c)
    ensures Eligible(line, b, c)
  {
    ThresholdMonotone(line, Target(c).value, a, b);
  }

  /** The candidates for which the program computes a boundary. */
  predicate HasBoundary(line: FloatLine, c: Candidate) {
    c.status == Active && c.prediction.Finite? && Target(c).Finite? && c.prediction.value < line.one
  }

  function StartOf(line: FloatLine, c: Candidate): int
    requires HasBoundary(line, c)
  {
    BoundaryStart(line, c.prediction.value, Target(c).value)
  }

  ghost function BoundaryOf(line: FloatLine, c: Candidate): (r: int)
    requires line.Sound() && HasBoundary(line, c)
    ensures Eligible(line, r, c)
  {
    FirstAbove(line, c.prediction.value, Target(c).value, StartOf(line, c))
  }

  /**
   However addition rounds, the candidate is eligible at its boundary; and no smaller extra would do
   exactly when the search did not already start on an eligible extra's successor.
   */
  lemma BoundaryIsLeastIff(line: FloatLine, c: Candidate)
    requires line.Sound() && HasBoundary(line, c)
    ensures (forall x :: x < BoundaryOf(line, c) ==> !Eligible(line, x, c)) <==>
        !Eligible(line, StartOf(line, c) - 1, c)
  {
    var start, r := StartOf(line, c), BoundaryOf(line, c);
    if !Eligible(line, start - 1, c) {
      forall x | x < r ensures !Eligible(line, x, c) {
        if x < start && Eligible(line, x, c) {
          EligibilityIsMonotone(line, c, x, start - 1);
        }
      }
    }
  }

  /** The search for a boundary does not start past it. */
  ghost predicate StartsBelow(line: FloatLine, c: Candidate) {
    HasBoundary(line, c) ==> !Eligible(line, StartOf(line, c) - 1, c)
  }

  /** A candidate with all targets alike, active and with the given prediction. */
  function Waiter(prediction: int, target: int): Candidate {
    Candidate(Identity(1, 1, Missing, Missing, Missing), None, -1.0, -1.0, 0.0, 0.0, -1.0, -1.0,
              Finite(prediction), Finite(target), Finite(target), 0, 0, Active, 0)
  }

  /** A rounding of the subtraction for which the boundary of an ordinary prediction is not its least eligible extra. */
  lemma RoundedStartOvershoots()
    ensures var line := FloatLine(100, 1, (a: int, b: int) => a + b, (a: int, b: int) => a - b + 1,
                                  (a: int, b: int) => None);
      var c := Waiter(5, 9);
      && line.Sound() && HasBoundary(line, c) && c.prediction.value >= 0
      && !StartsBelow(line, c) && Eligible(line, BoundaryOf(line, c) - 1, c)
  {
    var line := FloatLine(100, 1, (a: int, b: int) => a + b, (a: int, b: int) => a - b + 1, (a: int, b: int) => None);
    var c := Waiter(5, 9);
    GridIsSound(line);
    assert IsFirstAbove(line, 5, 9, StartOf(line, c), StartOf(line, c));
    FirstAboveUnique(line, 5, 9, StartOf(line, c), StartOf(line, c), BoundaryOf(line, c));
  }

  /** On a grid a negative prediction is eligible below its boundary. */
  lemma NegativePredictionOvershoots()
    ensures var line := FloatLine(100, 1, (a: int, b: int) => a + b, (a: int, b: int) => a - b,
                                  (a: int, b: int) => None);
      var c := Waiter(-1, 9);
      && line.Sound() && line.Exact() && HasBoundary(line, c) && Eligible(line, BoundaryOf(line, c) - 1, c)
  {
    var line := FloatLine(100, 1, (a: int, b: int) => a + b, (a: int, b: int) => a - b, (a: int, b: int) => None);
    var c := Waiter(-1, 9);
    GridIsSound(line);
    ExactBoundary(line, c);
  }

  lemma GridIsSound(line: FloatLine)
    requires 0 < line.one && forall t, a :: line.Plus(t, a) == t + a
    ensures line.Sound()
  {
    forall t, v ensures line.Reaches(t, v) {
      assert line.Plus(t, v - t + 1) > v;
    }
  }

  /** Without rounding the boundary is the least eligible extra exactly for non-negative predictions. */
  lemma ExactBoundary(line: FloatLine, c: Candidate)
    requires line.Sound() && line.Exact() && HasBoundary(line, c)
    ensures BoundaryOf(line, c) == c.prediction.value + 1 - Target(c).value
    ensures (forall x :: Eligible(line, x, c) <==> x >= BoundaryOf(line, c)) <==> c.prediction.value >= 0
  {
    var p, t := c.prediction.value, Target(c).value;
    assert line.Minus(p + 1, t) == p + 1 - t && line.Minus(p, t) == p - t;
    assert line.Plus(t, p + 1 - t) == p + 1;
    FirstAboveUnique(line, p, t, p + 1 - t, p + 1 - t, BoundaryOf(line, c));
    if p >= 0 {
      forall x ensures Eligible(line, x, c) <==> x >= p + 1 - t {
        assert line.Plus(t, x) == t + x;
      }
    } else {
      assert Eligible(line, p - t, c);
    }
  }

  lemma {:induction false} LeastBoundaryIs(line: FloatLine, extra: int, cs: seq<Candidate>)
    requires line.Sound()
    ensures match LeastBoundary(line, extra, cs)
      case None => forall c :: c in cs ==> NextBoundary(line, extra, c) == None
      case Some(b) =>
        && (exists c :: c in cs && NextBoundary(line, extra, c) == Some(b))
        && (forall c :: c in cs && NextBoundary(line, extra, c).Some? ==> b <= NextBoundary(line, extra, c).value)
  {
    if cs != [] {
      var front, last := cs[..|cs| - 1], cs[|cs| - 1];
      LeastBoundaryIs(line, extra, front);
      assert forall c :: c in cs <==> c in front || c == last;
      var rest := LeastBoundary(line, extra, front);
      if rest.Some? {
        var c :| c in front && NextBoundary(line, extra, c) == rest;
        assert c in cs;
      }
      if NextBoundary(line, extra, last).Some? {
        assert last in cs;
      }
    }
  }

  /** A candidate that raising the extra will make eligible. */
  ghost predicate Waiting(line: FloatLine, extra: int, c: Candidate) {
    HasBoundary(line, c) && !Eligible(line, extra, c)
  }

  lemma BoundaryMeansWaiting(line: FloatLine, extra: int, c: Candidate)
    requires line.Sound() && StartsBelow(line, c)
    ensures NextBoundary(line, extra, c).Some? <==> Waiting(line, extra, c)
    ensures Waiting(line, extra, c) ==> forall x :: Eligible(line, x, c) <==> x >= NextBoundary(line, extra, c).value
  {
    if HasBoundary(line, c) {
      var r := BoundaryOf(line, c);
      BoundaryIsLeastIff(line, c);
      forall x ensures Eligible(line, x, c) <==> x >= r {
        if x >= r {
          EligibilityIsMonotone(line, c, r, x);
        }
      }
    }
  }

  lemma NotWaitingIsConstant(line: FloatLine, c: Candidate, extra: int, x: int)
    requires line.Sound() && extra <= x && !Waiting(line, extra, c)
    requires c.status == Active || c.status == PendingRefresh
    ensures Eligible(line, x, c) <==> Eligible(line, extra, c)
  {
    if Eligible(line, extra, c) {
      EligibilityIsMonotone(line, c, extra, x);
    }
  }

  /**
   What the next extra is for: absent exactly when no candidate waits; otherwise above the current
   extra, with the eligible set constant below it and larger at it.
   */
  ghost predicate IsNextExtra(line: FloatLine, extra: int, active: seq<Candidate>, next: Option<int>) {
    match next
    case None => forall c :: c in active ==> !Waiting(line, extra, c)
    case Some(b) =>
      && b > extra
      && (forall c, x :: c in active && extra <= x < b ==> (Eligible(line, x, c) <==> Eligible(line, extra, c)))
      && (forall c :: c in active && Eligible(line, extra, c) ==> Eligible(line, b, c))
      && (exists c :: c in active && !Eligible(line, extra, c) && Eligible(line, b, c))
  }

  /** On a grid with non-negative predictions. */
  lemma NextExtraIsExact(s: Session, k: nat, excluded: set<int>, count: nat)
    requires s.Coherent() && s.cfg.line.Sound() && s.cfg.line.Exact()
    requires forall c :: c in s.LiveCandidates() && c.prediction.Finite? ==> c.prediction.value >= 0
    ensures IsNextExtra(s.cfg.line, s.extra, Filter(s.Ranked(), ActiveFilter(excluded)),
                        SelectionResult(s, k, excluded, count).nextRetentionExtra)
  {
    forall c | c in s.LiveCandidates() ensures StartsBelow(s.cfg.line, c) {
      if HasBoundary(s.cfg.line, c) {
        ExactBoundary(s.cfg.line, c);
        BoundaryIsLeastIff(s.cfg.line, c);
      }
    }
    NextExtraUnderRounding(s, k, excluded, count);
  }

  /** However addition rounds, when no candidate's search starts past its boundary. */
  lemma NextExtraUnderRounding(s: Session, k: nat, excluded: set<int>, count: nat)
    requires s.Coherent() && s.cfg.line.Sound()
    requires forall c :: c in s.LiveCandidates() ==> StartsBelow(s.cfg.line, c)
    ensures IsNextExtra(s.cfg.line, s.extra, Filter(s.Ranked(), ActiveFilter(excluded)),
                        SelectionResult(s, k, excluded, count).nextRetentionExtra)
  {
    var line, active := s.cfg.line, Filter(s.Ranked(), ActiveFilter(excluded));
    RankedAreLive(s);
    FilterMembers(s.Ranked(), ActiveFilter(excluded));
    LeastBoundaryIs(line, s.extra, active);
    forall c | c in active
      ensures NextBoundary(line, s.extra, c).Some? <==> Waiting(line, s.extra, c)
      ensures Waiting(line, s.extra, c) ==> forall x :: Eligible(line, x, c) <==>
          x >= NextBoundary(line, s.extra, c).value
    {
      BoundaryMeansWaiting(line, s.extra, c);
    }
    var next := LeastBoundary(line, s.extra, active);
    if next.Some? {
      var b := next.value;
      var w :| w in active && NextBoundary(line, s.extra, w) == Some(b);
      assert Waiting(line, s.extra, w) && Eligible(line, b, w);
      forall c, x | c in active && s.extra <= x < b
        ensures Eligible(line, x, c) <==> Eligible(line, s.extra, c)
      {
        if !Waiting(line, s.extra, c) {
          NotWaitingIsConstant(line, c, s.extra, x);
        }
      }
      forall c | c in active && Eligible(line, s.extra, c) ensures Eligible(line, b, c) {
        EligibilityIsMonotone(line, c, s.extra, b);
      }
    }
  }
}
