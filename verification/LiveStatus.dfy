/** The four statuses as two independent bits, and the anchors that only reseeding moves. */
module LiveStatus {
  import opened Wrappers
  import opened Lists
  import opened LiveSpec
  import opened LiveRanking
  import opened LiveInvariant

  predicate IsExcluded(status: Status) {
    status == Excluded || status == ExcludedPendingRefresh
  }

  predicate IsPending(status: Status) {
    status == PendingRefresh || status == ExcludedPendingRefresh
  }

  function StatusOf(s: Session, card: int): Status
    requires s.Coherent() && card in s.live
  {
    s.slots[s.live[card]].status
  }

  /** The operations that neither drop nor rebuild the universe. */
  predicate InPlaceOp(op: Op) {
    op.RefreshOp? || op.ExcludeOp? || op.IncludeOp? || op.UpsertOp? || op.SetRetentionExtraOp?
  }

  ghost predicate Seeds(seeds: seq<Seed>, card: int) {
    exists i :: 0 <= i < |seeds| && seeds[i].id.cardId == card
  }

  lemma {:induction false} UpsertOnCard(s: Session, cs: seq<Candidate>, k: nat, card: int)
    requires Inv(s) && k <= |cs| && FreshlyBuilt(cs) && card in s.live
    ensures var t := UpsertAll(s, cs, k);
      && card in t.live && t.live[card] == s.live[card]
      && IsExcluded(StatusOf(t, card)) == IsExcluded(StatusOf(s, card))
      && (if exists j :: 0 <= j < k && cs[j].Card() == card then IsPending(StatusOf(t, card))
          else t.slots[t.live[card]] == s.slots[s.live[card]])
  {
    if k > 0 {
      UpsertOnCard(s, cs, k - 1, card);
      UpsertOneOnCard(UpsertAll(s, cs, k - 1), cs[k - 1], card);
    }
  }

  lemma UpsertOneOnCard(u: Session, c: Candidate, card: int)
    requires u.Coherent() && card in u.live
    ensures var t := UpsertOne(u, c);
      && t.Coherent() && card in t.live && t.live[card] == u.live[card]
      && IsExcluded(StatusOf(t, card)) == IsExcluded(StatusOf(u, card))
      && (if c.Card() == card then IsPending(StatusOf(t, card)) else t.slots[t.live[card]] == u.slots[u.live[card]])
  {
    if c.Card() != card && c.Card() in u.live {
      assert u.live[c.Card()] != u.live[card];
    }
  }

  lemma RefreshOnCard(s: Session, timestamp: real, day: real, refreshExcluded: set<int>, extra: int, card: int)
    requires Inv(s) && card in s.live && Refresh(s, timestamp, day, refreshExcluded, extra).Ok?
    ensures var t := Refresh(s, timestamp, day, refreshExcluded, extra).value;
      && t.Coherent() && card in t.live && t.live[card] == s.live[card]
      && t.slots[t.live[card]].anchor == s.slots[s.live[card]].anchor
      && IsExcluded(StatusOf(t, card)) == IsExcluded(StatusOf(s, card))
      && IsPending(StatusOf(t, card))
          == (IsPending(StatusOf(s, card)) && s.slots[s.live[card]] !in Membership(s, refreshExcluded))
  {
    var c, i := s.slots[s.live[card]], s.live[card];
    var transport := Transport(s, refreshExcluded);
    RefreshKeepsInv(s, timestamp, day, refreshExcluded, extra);
    TransportInPlace(s, refreshExcluded);
    var predictions := Predicted(s.cfg, RowsAt(transport, timestamp, day)).value;
    RefreshedSlot(s, transport, predictions, timestamp, day, i);
    if c in Membership(s, refreshExcluded) {
      MemberStatus(s, refreshExcluded, c);
      var j :| 0 <= j < |transport| && transport[j] == c;
      WriteBackAt(s.slots, transport, predictions, timestamp, day, |transport|, j);
    } else {
      forall j | 0 <= j < |transport| ensures transport[j].slot != i {
        assert transport[j] in Membership(s, refreshExcluded);
      }
      WriteBackElsewhere(s.slots, transport, predictions, timestamp, day, |transport|, i);
    }
  }

  lemma MemberStatus(s: Session, refreshExcluded: set<int>, c: Candidate)
    requires c in Membership(s, refreshExcluded)
    ensures c.status == Active || c.status == PendingRefresh
  {
    var pending := PendingChosen(s, refreshExcluded);
    var rest := Filter(s.Ranked(), RestFilter(refreshExcluded, Cards(pending)));
    FilterMembers(s.LiveCandidates(), PendingFilter(refreshExcluded));
    FilterMembers(s.Ranked(), RestFilter(refreshExcluded, Cards(pending)));
    assert c in pending + rest;
    assert c in pending || c in rest;
  }

  lemma BuiltCards(seeds: seq<Seed>, timestamp: real, day: real, card: int)
    requires FromSeeds(seeds, timestamp, day, |seeds|).Ok?
    ensures var cs := FromSeeds(seeds, timestamp, day, |seeds|).value;
      (exists j :: 0 <= j < |cs| && cs[j].Card() == card) <==> Seeds(seeds, card)
  {
    FromSeedsBuilds(seeds, timestamp, day, |seeds|);
    var cs := FromSeeds(seeds, timestamp, day, |seeds|).value;
    assert forall j :: 0 <= j < |cs| ==> cs[j].Card() == seeds[j].id.cardId;
  }

  /** How one operation moves the two bits of a live card: each operation sets its own bit and leaves the other. */
  lemma StepOnStatus(s: Session, op: Op, card: int)
    requires Inv(s) && card in s.live && InPlaceOp(op)
    ensures var t := Apply(s, op);
      && card in t.live
      && IsExcluded(StatusOf(t, card)) ==
         (if op == ExcludeOp(card) then true else if op == IncludeOp(card) then false
             else IsExcluded(StatusOf(s, card)))
      && IsPending(StatusOf(t, card)) ==
         (if Step(s, op).Err? then IsPending(StatusOf(s, card))
          else match op
            case UpsertOp(seeds) => Seeds(seeds, card) || IsPending(StatusOf(s, card))
            case RefreshOp(_, _, refreshExcluded, _) =>
              IsPending(StatusOf(s, card)) && s.slots[s.live[card]] !in Membership(s, refreshExcluded)
            case _ => IsPending(StatusOf(s, card)))
  {
    if Step(s, op).Ok? {
      match op
      case RefreshOp(timestamp, day, refreshExcluded, extra) =>
        RefreshOnCard(s, timestamp, day, refreshExcluded, extra, card);
      case UpsertOp(seeds) =>
        FromSeedsBuilds(seeds, s.targetTimestamp, s.targetDay, |seeds|);
        BuiltCards(seeds, s.targetTimestamp, s.targetDay, card);
        var cs := FromSeeds(seeds, s.targetTimestamp, s.targetDay, |seeds|).value;
        UpsertOnCard(s, cs, |cs|, card);
      case _ =>
    }
  }

  /** Whether the last exclusion or inclusion of the card in the run excluded it. */
  function LastExclusion(ops: seq<Op>, card: int, initially: bool): bool {
    if ops == [] then initially
    else if ops[|ops| - 1] == ExcludeOp(card) then true
    else if ops[|ops| - 1] == IncludeOp(card) then false
    else LastExclusion(ops[..|ops| - 1], card, initially)
  }

  /** Through any run of in-place operations a card stays live and is excluded exactly as last asked. */
  lemma {:induction false} ExclusionIsRemembered(s: Session, ops: seq<Op>, card: int)
    requires Inv(s) && card in s.live && forall op :: op in ops ==> InPlaceOp(op)
    ensures card in Run(s, ops).live
    ensures IsExcluded(StatusOf(Run(s, ops), card)) == LastExclusion(ops, card, IsExcluded(StatusOf(s, card)))
  {
    if ops != [] {
      var front := ops[..|ops| - 1];
      ExclusionIsRemembered(s, front, card);
      StepOnStatus(Run(s, front), ops[|ops| - 1], card);
    }
  }

  // ----- Anchors -----

  /** The operations that give a card a new anchor. */
  ghost predicate Reanchors(op: Op, card: int) {
    match op
    case UpsertOp(seeds) => Seeds(seeds, card)
    case ReplaceOp(_) => true
    case ReconcileCandidatesOp(_, _, _, _) => true
    case ReconcileMembershipOp(_, changed, _, _, _) => SeedFor(changed, card).Some?
    case _ => false
  }

  lemma {:induction false} ReconciledKeepsAnchor(s: Session, ids: seq<int>, changed: seq<Seed>, timestamp: real,
                                                 day: real, k: nat, i: nat)
    requires Inv(s) && i < k <= |ids| && Reconciled(s, ids, changed, timestamp, day, k).Ok?
        && SeedFor(changed, ids[i]).None?
    ensures ids[i] in s.live
    ensures Reconciled(s, ids, changed, timestamp, day, k).value[i].anchor == s.slots[s.live[ids[i]]].anchor
    ensures Reconciled(s, ids, changed, timestamp, day, k).value[i].Card() == ids[i]
  {
    if i < k - 1 {
      ReconciledKeepsAnchor(s, ids, changed, timestamp, day, k - 1, i);
    }
  }

  /** Only a new seed moves the time of a card's last review. */
  lemma AnchorIsFixed(s: Session, op: Op, card: int)
    requires Inv(s) && card in s.live && card in Apply(s, op).live && !Reanchors(op, card)
    ensures Apply(s, op).slots[Apply(s, op).live[card]].anchor == s.slots[s.live[card]].anchor
  {
    if Step(s, op).Ok? {
      match op
      case RefreshOp(timestamp, day, refreshExcluded, extra) =>
        RefreshOnCard(s, timestamp, day, refreshExcluded, extra, card);
      case UpsertOp(seeds) =>
        FromSeedsBuilds(seeds, s.targetTimestamp, s.targetDay, |seeds|);
        BuiltCards(seeds, s.targetTimestamp, s.targetDay, card);
        var cs := FromSeeds(seeds, s.targetTimestamp, s.targetDay, |seeds|).value;
        UpsertOnCard(s, cs, |cs|, card);
      case ReconcileMembershipOp(ids, changed, timestamp, day, extra) =>
        ReconciledBuilds(s, ids, changed, timestamp, day, |ids|);
        var t := Apply(s, op);
        ReconciledKeepsAnchor(s, ids, changed, timestamp, day, |ids|, t.live[card]);
      case _ =>
    }
  }
}
