/** The initial elapsed values of a reviewed card are never read: similar sessions answer alike for ever. */
module LiveSimulation {
  import opened Wrappers
  import opened Lists
  import opened LiveSpec
  import opened LiveRanking
  import opened LiveInvariant
  import opened LiveReconcile

  lemma ErasedInv(s: Session)
    requires Inv(s)
    ensures Inv(ErasedSession(s))
  {
  }

  lemma ErasedTwice(s: Session)
    ensures ErasedSession(ErasedSession(s)) == ErasedSession(s)
  {
  }

  // ----- Ranking and selection -----

  lemma LiveErased(s: Session)
    ensures Mapped(s.LiveCandidates(), Erase()) == ErasedSession(s).LiveCandidates()
  {
    FilterMapped(s.slots, s.LiveFilter(), Erase());
    FilterSame(Mapped(s.slots, Erase()), s.LiveFilter(), ErasedSession(s).LiveFilter());
  }

  lemma KeyErased(cfg: Config, extra: int, c: Candidate)
    ensures KeyOf(cfg, extra, Erased(c)) == KeyOf(cfg, extra, c)
  {
  }

  lemma RankedErased(s: Session)
    ensures Mapped(s.Ranked(), Erase()) == ErasedSession(s).Ranked()
  {
    LiveErased(s);
    var less := Before(s.cfg, s.extra);
    forall a, b ensures less(Erase()(a), Erase()(b)) == less(a, b) {
      KeyErased(s.cfg, s.extra, a);
      KeyErased(s.cfg, s.extra, b);
    }
    SortMapped(s.LiveCandidates(), less, Erase());
  }

  lemma {:induction false} LeastBoundaryErased(line: FloatLine, extra: int, cs: seq<Candidate>)
    requires line.Sound()
    ensures LeastBoundary(line, extra, Mapped(cs, Erase())) == LeastBoundary(line, extra, cs)
  {
    if cs != [] {
      LeastBoundaryErased(line, extra, cs[..|cs| - 1]);
      assert Mapped(cs, Erase())[..|cs| - 1] == Mapped(cs[..|cs| - 1], Erase());
    }
  }

  /** Erasing changes no selection result. */
  lemma SelectionErased(s: Session, k: nat, excluded: set<int>, count: nat)
    requires s.cfg.line.Sound()
    ensures SelectionResult(ErasedSession(s), k, excluded, count) == SelectionResult(s, k, excluded, count)
  {
    var line, extra := s.cfg.line, s.extra;
    var active := Filter(s.Ranked(), ActiveFilter(excluded));
    var eligible := Filter(active, EligibleFilter(line, extra));
    RankedErased(s);
    FilterMapped(s.Ranked(), ActiveFilter(excluded), Erase());
    FilterMapped(active, EligibleFilter(line, extra), Erase());
    LeastBoundaryErased(line, extra, active);
    MappedTake(k, eligible, Erase());
    assert Mapped(Mapped(Take(k, eligible), Erase()), Selected()) == Mapped(Take(k, eligible), Selected());
  }

  // ----- Refresh -----

  lemma CardsErased(cs: seq<Candidate>)
    ensures Cards(Mapped(cs, Erase())) == Cards(cs)
  {
  }

  lemma RowsErased(cs: seq<Candidate>, timestamp: real, day: real)
    ensures RowsAt(Mapped(cs, Erase()), timestamp, day) == RowsAt(cs, timestamp, day)
  {
  }

  lemma MembershipErased(s: Session, refreshExcluded: set<int>)
    ensures Mapped(Membership(s, refreshExcluded), Erase()) == Membership(ErasedSession(s), refreshExcluded)
  {
    var all := Filter(s.LiveCandidates(), PendingFilter(refreshExcluded));
    var pending := PendingChosen(s, refreshExcluded);
    LiveErased(s);
    FilterMapped(s.LiveCandidates(), PendingFilter(refreshExcluded), Erase());
    MappedTake(s.cfg.refreshLimit, all, Erase());
    assert Mapped(pending, Erase()) == PendingChosen(ErasedSession(s), refreshExcluded);
    CardsErased(pending);
    RankedErased(s);
    var rest := Filter(s.Ranked(), RestFilter(refreshExcluded, Cards(pending)));
    FilterMapped(s.Ranked(), RestFilter(refreshExcluded, Cards(pending)), Erase());
    MappedConcat(pending, rest, Erase());
    MappedTake(s.cfg.refreshLimit, pending + rest, Erase());
  }

  lemma TransportErased(s: Session, refreshExcluded: set<int>)
    ensures Mapped(Transport(s, refreshExcluded), Erase()) == Transport(ErasedSession(s), refreshExcluded)
  {
    MembershipErased(s, refreshExcluded);
    SortMapped(Membership(s, refreshExcluded), BySlot(), Erase());
  }

  lemma RefreshedErased(c: Candidate, timestamp: real, day: real, prediction: Num)
    ensures Erased(Refreshed(c, timestamp, day, prediction)) == Refreshed(Erased(c), timestamp, day, prediction)
  {
  }

  lemma {:induction false} WriteBackErased(slots: seq<Candidate>, transport: seq<Candidate>, predictions: seq<Num>,
                                           timestamp: real, day: real, k: nat)
    requires |transport| == |predictions| && k <= |transport|
    requires forall j :: 0 <= j < |transport| ==> transport[j].slot < |slots|
    ensures Mapped(WriteBack(slots, transport, predictions, timestamp, day, k), Erase())
         == WriteBack(Mapped(slots, Erase()), Mapped(transport, Erase()), predictions, timestamp, day, k)
  {
    if k > 0 {
      WriteBackErased(slots, transport, predictions, timestamp, day, k - 1);
      RefreshedErased(transport[k - 1], timestamp, day, predictions[k - 1]);
    }
  }

  /** What a refresh reads of its transport and membership. */
  lemma TransportReadsErased(s: Session, timestamp: real, day: real, refreshExcluded: set<int>)
    ensures var transport, erased := Transport(s, refreshExcluded), Transport(ErasedSession(s), refreshExcluded);
      RowsAt(erased, timestamp, day) == RowsAt(transport, timestamp, day) && Cards(erased) == Cards(transport)
    ensures Cards(Membership(ErasedSession(s), refreshExcluded)) == Cards(Membership(s, refreshExcluded))
  {
    TransportErased(s, refreshExcluded);
    MembershipErased(s, refreshExcluded);
    RowsErased(Transport(s, refreshExcluded), timestamp, day);
    CardsErased(Transport(s, refreshExcluded));
    CardsErased(Membership(s, refreshExcluded));
  }

  lemma RefreshedSessionErased(s: Session, timestamp: real, day: real, extra: int, members: seq<int>,
                               transported: seq<int>, slots: seq<Candidate>)
    ensures ErasedSession(s.(extra := extra, targetTimestamp := timestamp, targetDay := day,
                             generation := s.generation + 1,
                             slots := slots, lastMembership := members, lastTransport := transported))
         == ErasedSession(s).(extra := extra, targetTimestamp := timestamp, targetDay := day,
                              generation := s.generation + 1,
                              slots := Mapped(slots, Erase()), lastMembership := members, lastTransport := transported)
  {
  }

  lemma RefreshErased(s: Session, timestamp: real, day: real, refreshExcluded: set<int>, extra: int)
    requires Inv(s) && Inv(ErasedSession(s))
    ensures var a, b := Refresh(s, timestamp, day, refreshExcluded, extra),
        Refresh(ErasedSession(s), timestamp, day, refreshExcluded, extra);
      if a.Ok? then b == Ok(ErasedSession(a.value)) else b == a
  {
    var transport := Transport(s, refreshExcluded);
    TransportErased(s, refreshExcluded);
    TransportReadsErased(s, timestamp, day, refreshExcluded);
    TransportInSlots(s, refreshExcluded);
    var r := Predicted(s.cfg, RowsAt(transport, timestamp, day));
    if r.Ok? {
      WriteBackErased(s.slots, transport, r.value, timestamp, day, |transport|);
      RefreshedSessionErased(s, timestamp, day, extra, Cards(Membership(s, refreshExcluded)), Cards(transport),
                             WriteBack(s.slots, transport, r.value, timestamp, day, |transport|));
    }
  }

  // ----- The other operations -----

  lemma SetStatusErased(s: Session, card: int, status: Status)
    requires s.Coherent() && ErasedSession(s).Coherent() && card in s.live
    ensures ErasedSession(SetStatus(s, card, status)) == SetStatus(ErasedSession(s), card, status)
  {
    var i := s.live[card];
    assert Erased(s.slots[i].(status := status)) == Erased(s.slots[i]).(status := status);
    assert Mapped(s.slots[i := s.slots[i].(status := status)], Erase())
        == Mapped(s.slots, Erase())[i := Erased(s.slots[i]).(status := status)];
  }

  lemma UpsertOneErased(s: Session, t: Session, c: Candidate)
    requires s.Coherent() && t.Coherent() && Similar(s, t)
    ensures Similar(UpsertOne(s, c), UpsertOne(t, c))
  {
    assert |s.slots| == |Mapped(s.slots, Erase())| == |Mapped(t.slots, Erase())| == |t.slots|;
    var u, v := UpsertOne(s, c), UpsertOne(t, c);
    forall i | 0 <= i < |u.slots| ensures Erased(u.slots[i]) == Erased(v.slots[i]) {
      if i < |s.slots| {
        assert Erased(s.slots[i]) == Mapped(s.slots, Erase())[i] == Mapped(t.slots, Erase())[i] == Erased(t.slots[i]);
        assert s.slots[i].status == Erased(s.slots[i]).status == Erased(t.slots[i]).status == t.slots[i].status;
      }
    }
    assert Mapped(u.slots, Erase()) == Mapped(v.slots, Erase());
  }

  lemma {:induction false} UpsertAllErased(s: Session, t: Session, cs: seq<Candidate>, k: nat)
    requires s.Coherent() && t.Coherent() && Similar(s, t) && k <= |cs|
    ensures Similar(UpsertAll(s, cs, k), UpsertAll(t, cs, k))
  {
    if k > 0 {
      UpsertAllErased(s, t, cs, k - 1);
      UpsertOneErased(UpsertAll(s, cs, k - 1), UpsertAll(t, cs, k - 1), cs[k - 1]);
    }
  }

  lemma {:induction false} ReconciledErased(s: Session, ids: seq<int>, changed: seq<Seed>, timestamp: real, day: real,
                                            k: nat)
    requires s.Coherent() && ErasedSession(s).Coherent() && k <= |ids|
    ensures var a, b := Reconciled(s, ids, changed, timestamp, day, k),
        Reconciled(ErasedSession(s), ids, changed, timestamp, day, k);
      && a.Ok? == b.Ok?
      && (a.Err? ==> a.error == b.error)
      && (a.Ok? ==> forall i :: 0 <= i < k ==> Erased(a.value[i]) == Erased(b.value[i]))
  {
    if k > 0 {
      ReconciledErased(s, ids, changed, timestamp, day, k - 1);
      var card := ids[k - 1];
      if card in s.live {
        var c := s.slots[s.live[card]];
        assert ErasedSession(s).slots[s.live[card]] == Erased(c);
        assert Erased(Kept(c, timestamp, day, k - 1)) == Erased(Kept(Erased(c), timestamp, day, k - 1));
      }
    }
  }

  ghost predicate SameOutcome(a: Result<Session, LiveError>, b: Result<Session, LiveError>) {
    if a.Ok? then b.Ok? && Similar(a.value, b.value) else b == a
  }

  lemma ReconcileErased(s: Session, ids: seq<int>, changed: seq<Seed>, timestamp: real, day: real, extra: int)
    requires Inv(s) && Inv(ErasedSession(s))
    ensures SameOutcome(ReconcileMembership(s, ids, changed, timestamp, day, extra),
                        ReconcileMembership(ErasedSession(s), ids, changed, timestamp, day, extra))
  {
    ReconciledErased(s, ids, changed, timestamp, day, |ids|);
    var a, b := Reconciled(s, ids, changed, timestamp, day, |ids|),
        Reconciled(ErasedSession(s), ids, changed, timestamp, day, |ids|);
    if a.Ok? {
      InstallIgnoresErased(s, a.value, b.value, timestamp, day, extra);
      InstallReadsLittle(s, ErasedSession(s), b.value, timestamp, day, extra);
    }
  }

  lemma InstallReadsLittle(s: Session, t: Session, cs: seq<Candidate>, timestamp: real, day: real, extra: int)
    requires s.cfg == t.cfg && s.generation == t.generation
    ensures Install(s, cs, timestamp, day, extra) == Install(t, cs, timestamp, day, extra)
  {
  }

  lemma StepErased(s: Session, op: Op)
    requires Inv(s) && Inv(ErasedSession(s))
    ensures SameOutcome(Step(s, op), Step(ErasedSession(s), op))
  {
    ErasedTwice(s);
    match op
    case RefreshOp(timestamp, day, refreshExcluded, extra) =>
      RefreshErased(s, timestamp, day, refreshExcluded, extra);
      if Step(s, op).Ok? {
        ErasedTwice(Step(s, op).value);
      }
    case ExcludeOp(card) =>
      if card in s.live {
        SetStatusErased(s, card, ExcludedStatus(s.slots[s.live[card]].status));
        ErasedTwice(Step(s, op).value);
      }
    case IncludeOp(card) =>
      if card in s.live {
        SetStatusErased(s, card, IncludedStatus(s.slots[s.live[card]].status));
        ErasedTwice(Step(s, op).value);
      }
    case UpsertOp(seeds) =>
      var cs := FromSeeds(seeds, s.targetTimestamp, s.targetDay, |seeds|);
      if cs.Ok? {
        UpsertAllErased(s, ErasedSession(s), cs.value, |cs.value|);
      }
    case ReconcileMembershipOp(ids, changed, timestamp, day, extra) =>
      ReconcileErased(s, ids, changed, timestamp, day, extra);
    case _ =>
  }

  /** One operation on similar sessions: the same success or error, and similar sessions again. */
  lemma SimilarStep(s: Session, t: Session, op: Op)
    requires Inv(s) && Inv(t) && Similar(s, t)
    ensures SameOutcome(Step(s, op), Step(t, op))
  {
    ErasedInv(s);
    StepErased(s, op);
    StepErased(t, op);
  }

  /** Similar sessions stay similar through every run and report the same selections. */
  lemma SimilarRuns(s: Session, t: Session, ops: seq<Op>, k: nat, excluded: set<int>, count: nat)
    requires Inv(s) && Inv(t) && Similar(s, t) && s.cfg.line.Sound()
    ensures Similar(Run(s, ops), Run(t, ops))
    ensures SelectionResult(Run(s, ops), k, excluded, count) == SelectionResult(Run(t, ops), k, excluded, count)
  {
    SimilarAfter(s, t, ops);
    SelectionErased(Run(s, ops), k, excluded, count);
    SelectionErased(Run(t, ops), k, excluded, count);
  }

  lemma {:induction false} SimilarAfter(s: Session, t: Session, ops: seq<Op>)
    requires Inv(s) && Inv(t) && Similar(s, t)
    ensures Similar(Run(s, ops), Run(t, ops))
  {
    if ops != [] {
      var front := ops[..|ops| - 1];
      SimilarAfter(s, t, front);
      SimilarStep(Run(s, front), Run(t, front), ops[|ops| - 1]);
    }
  }

  lemma IncrementalKeepsInv(s: Session, ids: seq<int>, changed: seq<Seed>, timestamp: real, day: real, extra: int)
    requires Inv(s) && ReconcileMembership(s, ids, changed, timestamp, day, extra).Ok?
    ensures var t := ReconcileMembership(s, ids, changed, timestamp, day, extra).value;
      Inv(t) && t.cfg == s.cfg
  {
    StepKeepsInv(s, ReconcileMembershipOp(ids, changed, timestamp, day, extra));
  }

  lemma FullKeepsInv(s: Session, seeds: seq<Seed>, timestamp: real, day: real, extra: int)
    requires Inv(s) && ReconcileCandidates(s, seeds, timestamp, day, extra).Ok?
    ensures var t := ReconcileCandidates(s, seeds, timestamp, day, extra).value;
      Inv(t) && t.cfg == s.cfg
  {
    StepKeepsInv(s, ReconcileCandidatesOp(seeds, timestamp, day, extra));
  }

  lemma BothReconcile(s: Session, ids: seq<int>, changed: seq<Seed>, timestamp: real, day: real, extra: int)
    requires Inv(s)
    requires ReconcileMembership(s, ids, changed, timestamp, day, extra).Ok? && AllKnown(s, ids, changed)
    requires NotBeforeKeptAnchors(s, ids, changed, timestamp, day)
    ensures var full := ReconcileCandidates(s, FullSeeds(s, ids, changed, timestamp, day), timestamp, day, extra);
      var incremental := ReconcileMembership(s, ids, changed, timestamp, day, extra).value;
      full.Ok? && Inv(full.value) && Inv(incremental) && full.value.cfg == incremental.cfg == s.cfg
          && Similar(incremental, full.value)
  {
    IncrementalRefinesFull(s, ids, changed, timestamp, day, extra);
    IncrementalKeepsInv(s, ids, changed, timestamp, day, extra);
    FullKeepsInv(s, FullSeeds(s, ids, changed, timestamp, day), timestamp, day, extra);
  }

  /**
   The two reconciliations, when the target is not before a kept card's last review, are followed by
   the same selections whatever operations come next.
   */
  lemma ReconciliationsAreInterchangeable(s: Session, ids: seq<int>, changed: seq<Seed>, timestamp: real, day: real,
                                          extra: int, ops: seq<Op>, k: nat, excluded: set<int>, count: nat)
    requires Inv(s) && s.cfg.line.Sound()
    requires ReconcileMembership(s, ids, changed, timestamp, day, extra).Ok? && AllKnown(s, ids, changed)
    requires NotBeforeKeptAnchors(s, ids, changed, timestamp, day)
    ensures var full := ReconcileCandidates(s, FullSeeds(s, ids, changed, timestamp, day), timestamp, day, extra);
      var incremental := ReconcileMembership(s, ids, changed, timestamp, day, extra).value;
      && full.Ok? && Inv(full.value) && Inv(incremental)
      && full.value.cfg == incremental.cfg == s.cfg
      && SelectionResult(Run(full.value, ops), k, excluded, count)
          == SelectionResult(Run(incremental, ops), k, excluded, count)
  {
    BothReconcile(s, ids, changed, timestamp, day, extra);
    var seeds := FullSeeds(s, ids, changed, timestamp, day);
    var a, b := ReconcileMembership(s, ids, changed, timestamp, day, extra).value,
        ReconcileCandidates(s, seeds, timestamp, day, extra).value;
    SimilarRuns(a, b, ops, k, excluded, count);
  }
}
