/** What every operation of the live session keeps, and so what every reachable session satisfies. */
module LiveInvariant {
  import opened Wrappers
  import opened Lists
  import opened LiveSpec
  import opened LiveRanking

  /** Elapsed time is query time minus the fixed anchor; a card without a prior review has -1 throughout. */
  predicate Anchored(c: Candidate) {
    match c.anchor
    case Some(a) => c.elapsedSeconds == c.queryTimestamp - a.timestamp && c.elapsedDays == c.queryDay - a.day
    case None => c.elapsedSeconds == c.elapsedDays == c.newElapsedSeconds == c.newElapsedDays == -1.0
  }

  /** A pending candidate has no usable prediction. */
  predicate PendingIsUnpredicted(c: Candidate) {
    c.status == PendingRefresh || c.status == ExcludedPendingRefresh ==> c.prediction == NonFinite
  }

  ghost predicate Inv(s: Session) {
    && s.Coherent()
    && forall i :: 0 <= i < |s.slots| ==> Anchored(s.slots[i]) && PendingIsUnpredicted(s.slots[i])
  }

  // ----- Building candidates -----

  ghost predicate FreshlyBuilt(cs: seq<Candidate>) {
    forall i :: 0 <= i < |cs| ==>
      cs[i].slot == i && Anchored(cs[i]) && cs[i].prediction == NonFinite && cs[i].status == PendingRefresh
  }

  lemma {:induction false} FromSeedsBuilds(seeds: seq<Seed>, timestamp: real, day: real, k: nat)
    requires k <= |seeds| && FromSeeds(seeds, timestamp, day, k).Ok?
    ensures var cs := FromSeeds(seeds, timestamp, day, k).value;
      && FreshlyBuilt(cs)
      && forall i :: 0 <= i < k ==> CandidateFromSeed(seeds[i], timestamp, day, i) == Ok(cs[i])
  {
    if k > 0 {
      FromSeedsBuilds(seeds, timestamp, day, k - 1);
    }
  }

  lemma {:induction false} ReconciledBuilds(s: Session, ids: seq<int>, changed: seq<Seed>, timestamp: real, day: real,
                                            k: nat)
    requires Inv(s) && k <= |ids| && Reconciled(s, ids, changed, timestamp, day, k).Ok?
    ensures var cs := Reconciled(s, ids, changed, timestamp, day, k).value;
      FreshlyBuilt(cs) && forall i :: 0 <= i < k ==> cs[i].Card() == ids[i]
  {
    if k > 0 {
      ReconciledBuilds(s, ids, changed, timestamp, day, k - 1);
    }
  }

  lemma InstalledInv(t: Session, cs: seq<Candidate>, predictions: seq<Num>)
    requires FreshlyBuilt(cs) && |predictions| == |cs|
    requires t.slots == Activated(cs, predictions) && t.live == Index(cs)
    ensures Inv(t)
  {
  }

  /** With no card twice, the index finds every candidate. */
  lemma {:induction false} IndexFinds(cs: seq<Candidate>, i: nat)
    requires i < |cs| && Distinct(Cards(cs))
    ensures cs[i].Card() in Index(cs) && Index(cs)[cs[i].Card()] == i
  {
    var front := cs[..|cs| - 1];
    assert forall j :: 0 <= j < |cs| ==> Cards(cs)[j] == cs[j].Card();
    if i < |front| {
      assert Cards(front) == Cards(cs)[..|front|];
      IndexFinds(front, i);
    }
  }

  lemma {:induction false} NoDuplicateIsDistinct(cards: seq<int>)
    ensures DuplicateOf(cards) == None <==> Distinct(cards)
  {
    if cards != [] {
      var front, last := cards[..|cards| - 1], cards[|cards| - 1];
      NoDuplicateIsDistinct(front);
      if DuplicateOf(front) == None && last in front {
        var j :| 0 <= j < |front| && front[j] == last;
        assert cards[j] == cards[|cards| - 1];
      }
      if !Distinct(front) {
        var i, j :| 0 <= i < j < |front| && front[i] == front[j];
        assert cards[i] == cards[j];
      }
    }
  }

  // ----- Writing refreshed candidates back -----

  ghost predicate InPlace(slots: seq<Candidate>, transport: seq<Candidate>) {
    && (forall j :: 0 <= j < |transport| ==> transport[j].slot < |slots| && slots[transport[j].slot] == transport[j])
    && forall i, j :: 0 <= i < j < |transport| ==> transport[i].slot != transport[j].slot
  }

  lemma {:induction false} WriteBackAt(slots: seq<Candidate>, transport: seq<Candidate>, predictions: seq<Num>,
                                       timestamp: real, day: real, k: nat, j: nat)
    requires |transport| == |predictions| && j < k <= |transport| && InPlace(slots, transport)
    ensures WriteBack(slots, transport, predictions, timestamp, day, k)[transport[j].slot]
         == Refreshed(transport[j], timestamp, day, predictions[j])
  {
    if j < k - 1 {
      WriteBackAt(slots, transport, predictions, timestamp, day, k - 1, j);
    }
  }

  lemma {:induction false} WriteBackElsewhere(slots: seq<Candidate>, transport: seq<Candidate>, predictions: seq<Num>,
                                              timestamp: real, day: real, k: nat, i: nat)
    requires |transport| == |predictions| && k <= |transport| && InPlace(slots, transport) && i < |slots|
    requires forall j :: 0 <= j < k ==> transport[j].slot != i
    ensures WriteBack(slots, transport, predictions, timestamp, day, k)[i] == slots[i]
  {
    if k > 0 {
      WriteBackElsewhere(slots, transport, predictions, timestamp, day, k - 1, i);
    }
  }

  lemma MembershipIsDistinct(s: Session, refreshExcluded: set<int>)
    requires s.Coherent()
    ensures Distinct(Membership(s, refreshExcluded))
  {
    var pending := PendingChosen(s, refreshExcluded);
    var rest := Filter(s.Ranked(), RestFilter(refreshExcluded, Cards(pending)));
    LiveAreDistinct(s);
    FilterDistinct(s.LiveCandidates(), PendingFilter(refreshExcluded));
    RankedIsSorted(s);
    FilterDistinct(s.Ranked(), RestFilter(refreshExcluded, Cards(pending)));
    FilterMembers(s.Ranked(), RestFilter(refreshExcluded, Cards(pending)));
    forall i, j | 0 <= i < |pending| && 0 <= j < |rest| ensures pending[i] != rest[j] {
      assert Cards(pending)[i] == pending[i].Card();
      assert rest[j] in rest;
    }
  }

  lemma TransportInPlace(s: Session, refreshExcluded: set<int>)
    requires s.Coherent()
    ensures InPlace(s.slots, Transport(s, refreshExcluded))
    ensures SortedBy(Transport(s, refreshExcluded), BySlot())
    ensures forall c :: c in Transport(s, refreshExcluded) <==> c in Membership(s, refreshExcluded)
  {
    var membership, transport := Membership(s, refreshExcluded), Transport(s, refreshExcluded);
    MembershipIsDistinct(s, refreshExcluded);
    MembersAreLive(s, refreshExcluded);
    BySlotIsStrict();
    forall a, b | a in membership && b in membership && a != b ensures BySlot()(a, b) || BySlot()(b, a) {
      LiveIsItsSlot(s, a);
      LiveIsItsSlot(s, b);
    }
    SortSorts(membership, BySlot());
    SortPermutes(membership, BySlot());
    SameMembers(membership, transport);
    forall j | 0 <= j < |transport|
        ensures transport[j].slot < |s.slots| && s.slots[transport[j].slot] == transport[j] {
      assert transport[j] in membership;
      LiveIsItsSlot(s, transport[j]);
    }
    forall i, j | 0 <= i < j < |transport| ensures transport[i].slot != transport[j].slot {
      assert BySlot()(transport[i], transport[j]);
    }
  }

  // ----- Every operation keeps the invariant -----

  datatype Op =
    | RefreshOp(timestamp: real, day: real, refreshExcluded: set<int>, extra: int)
    | ExcludeOp(card: int)
    | IncludeOp(card: int)
    | RemoveOp(card: int)
    | UpsertOp(seeds: seq<Seed>)
    | ReplaceOp(seeds: seq<Seed>)
    | ReconcileCandidatesOp(seeds: seq<Seed>, timestamp: real, day: real, extra: int)
    | ReconcileMembershipOp(ids: seq<int>, changed: seq<Seed>, timestamp: real, day: real, extra: int)
    | SetRetentionExtraOp(extra: int)

  function Step(s: Session, op: Op): Result<Session, LiveError>
    requires s.Coherent()
  {
    match op
    case RefreshOp(timestamp, day, refreshExcluded, extra) => Refresh(s, timestamp, day, refreshExcluded, extra)
    case ExcludeOp(card) => ExcludeCard(s, card)
    case IncludeOp(card) => IncludeCard(s, card)
    case RemoveOp(card) => RemoveCandidate(s, card)
    case UpsertOp(seeds) => UpsertCandidates(s, seeds)
    case ReplaceOp(seeds) => ReplaceCandidates(s, seeds)
    case ReconcileCandidatesOp(seeds, timestamp, day, extra) => ReconcileCandidates(s, seeds, timestamp, day, extra)
    case ReconcileMembershipOp(ids, changed, timestamp, day, extra) =>
        ReconcileMembership(s, ids, changed, timestamp, day, extra)
    case SetRetentionExtraOp(extra) => Ok(SetRetentionExtra(s, extra))
  }

  lemma RefreshKeepsInv(s: Session, timestamp: real, day: real, refreshExcluded: set<int>, extra: int)
    requires Inv(s) && Refresh(s, timestamp, day, refreshExcluded, extra).Ok?
    ensures Inv(Refresh(s, timestamp, day, refreshExcluded, extra).value)
  {
    var t, transport := Refresh(s, timestamp, day, refreshExcluded, extra).value, Transport(s, refreshExcluded);
    var predictions := Predicted(s.cfg, RowsAt(transport, timestamp, day)).value;
    TransportInPlace(s, refreshExcluded);
    forall i | 0 <= i < |t.slots|
      ensures t.slots[i].slot == i && t.slots[i].Card() == s.slots[i].Card()
      ensures Anchored(t.slots[i]) && PendingIsUnpredicted(t.slots[i])
    {
      RefreshedSlot(s, transport, predictions, timestamp, day, i);
    }
  }

  lemma RefreshedSlot(s: Session, transport: seq<Candidate>, predictions: seq<Num>, timestamp: real, day: real, i: nat)
    requires Inv(s) && InPlace(s.slots, transport) && |predictions| == |transport| && i < |s.slots|
    ensures var c := WriteBack(s.slots, transport, predictions, timestamp, day, |transport|)[i];
      && c.slot == i && c.Card() == s.slots[i].Card() && c.anchor == s.slots[i].anchor
      && Anchored(c) && PendingIsUnpredicted(c)
  {
    if j :| 0 <= j < |transport| && transport[j].slot == i {
      WriteBackAt(s.slots, transport, predictions, timestamp, day, |transport|, j);
    } else {
      WriteBackElsewhere(s.slots, transport, predictions, timestamp, day, |transport|, i);
    }
  }

  lemma {:induction false} UpsertKeepsInv(s: Session, cs: seq<Candidate>, k: nat)
    requires Inv(s) && k <= |cs| && FreshlyBuilt(cs)
    ensures Inv(UpsertAll(s, cs, k)) && UpsertAll(s, cs, k).cfg == s.cfg
  {
    if k > 0 {
      UpsertKeepsInv(s, cs, k - 1);
    }
  }

  /** One operation, successful or not, keeps index, slots and anchors coherent. */
  lemma StepKeepsInv(s: Session, op: Op)
    requires Inv(s) && Step(s, op).Ok?
    ensures Inv(Step(s, op).value) && Step(s, op).value.cfg == s.cfg
  {
    match op
    case RefreshOp(timestamp, day, refreshExcluded, extra) =>
      RefreshKeepsInv(s, timestamp, day, refreshExcluded, extra);
    case UpsertOp(seeds) =>
      FromSeedsBuilds(seeds, s.targetTimestamp, s.targetDay, |seeds|);
      var cs := FromSeeds(seeds, s.targetTimestamp, s.targetDay, |seeds|).value;
      UpsertKeepsInv(s, cs, |cs|);
    case ReplaceOp(seeds) =>
      FromSeedsBuilds(seeds, s.targetTimestamp, s.targetDay, |seeds|);
      var cs := FromSeeds(seeds, s.targetTimestamp, s.targetDay, |seeds|).value;
      InstalledInv(Step(s, op).value, cs, Predicted(s.cfg, RowsAt(cs, s.targetTimestamp, s.targetDay)).value);
    case ReconcileCandidatesOp(seeds, timestamp, day, extra) =>
      FromSeedsBuilds(seeds, timestamp, day, |seeds|);
      var cs := FromSeeds(seeds, timestamp, day, |seeds|).value;
      InstalledInv(Step(s, op).value, cs, Predicted(s.cfg, InitialRows(cs)).value);
    case ReconcileMembershipOp(ids, changed, timestamp, day, extra) =>
      ReconciledBuilds(s, ids, changed, timestamp, day, |ids|);
      var cs := Reconciled(s, ids, changed, timestamp, day, |ids|).value;
      InstalledInv(Step(s, op).value, cs, Predicted(s.cfg, InitialRows(cs)).value);
    case _ =>
  }

  // ----- Every reachable session -----

  /** One operation; a failed one leaves the session as it was. */
  ghost function Apply(s: Session, op: Op): (t: Session)
    requires Inv(s)
    ensures Inv(t) && t.cfg == s.cfg
  {
    match Step(s, op)
    case Ok(t) => StepKeepsInv(s, op); t
    case Err(_) => s
  }

  /** The session after a run of operations. */
  ghost function Run(s: Session, ops: seq<Op>): (t: Session)
    requires Inv(s)
    ensures Inv(t) && t.cfg == s.cfg
  {
    if ops == [] then s else Apply(Run(s, ops[..|ops| - 1]), ops[|ops| - 1])
  }

  /** Whatever runs from the start of a session, its index, slots and anchors are coherent. */
  lemma ReachableInv(cfg: Config, seeds: seq<Seed>, timestamp: real, day: real, ops: seq<Op>)
    requires Start(cfg, seeds, timestamp, day).Ok?
    ensures Inv(Start(cfg, seeds, timestamp, day).value)
    ensures var s := Run(Start(cfg, seeds, timestamp, day).value, ops);
      && Distinct(s.LiveCandidates())
      && (forall card :: card in s.live ==>
          s.slots[s.live[card]] in s.LiveCandidates() && s.slots[s.live[card]].Card() == card)
      && (forall c :: c in s.LiveCandidates() ==>
            Anchored(c) && c.Card() in s.live && s.live[c.Card()] == c.slot < |s.slots| && s.slots[c.slot] == c)
  {
    var s0 := Start(cfg, seeds, timestamp, day).value;
    FromSeedsBuilds(seeds, timestamp, day, |seeds|);
    var cs := FromSeeds(seeds, timestamp, day, |seeds|).value;
    InstalledInv(s0, cs, Predicted(cfg, InitialRows(cs)).value);
    var s := Run(s0, ops);
    LiveAreDistinct(s);
    FilterMembers(s.slots, s.LiveFilter());
    forall c | c in s.LiveCandidates()
      ensures Anchored(c) && c.Card() in s.live && s.live[c.Card()] == c.slot < |s.slots| && s.slots[c.slot] == c
    {
      LiveIsItsSlot(s, c);
    }
    forall card | card in s.live ensures s.slots[s.live[card]] in s.LiveCandidates() {
      assert s.IsLive(s.slots[s.live[card]]);
    }
  }
}
