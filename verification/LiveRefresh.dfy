/** Refresh: bounded, pending candidates first, excluded ones untouched, and no pending candidate waits for ever. */
module LiveRefresh {
  import opened Wrappers
  import opened Lists
  import opened LiveSpec
  import opened LiveRanking
  import opened LiveInvariant

  function RefreshableFilter(refreshExcluded: set<int>): Candidate -> bool {
    (c: Candidate) => (c.status == Active || c.status == PendingRefresh) && c.Card() !in refreshExcluded
  }

  /** Who is in the lists that a refresh draws on. */
  lemma Drawn(s: Session, refreshExcluded: set<int>)
    ensures forall c :: c in Filter(s.LiveCandidates(), PendingFilter(refreshExcluded)) <==>
      c in s.LiveCandidates() && c.status == PendingRefresh && c.Card() !in refreshExcluded
    ensures forall c :: c in Filter(s.LiveCandidates(), RefreshableFilter(refreshExcluded)) <==>
      c in s.LiveCandidates() && (c.status == Active || c.status == PendingRefresh) && c.Card() !in refreshExcluded
    ensures forall c ::
        c in Filter(s.Ranked(), RestFilter(refreshExcluded, Cards(PendingChosen(s, refreshExcluded)))) <==>
      && c in s.LiveCandidates() && (c.status == Active || c.status == PendingRefresh) && c.Card() !in refreshExcluded
      && c.Card() !in Cards(PendingChosen(s, refreshExcluded))
  {
    FilterMembers(s.LiveCandidates(), PendingFilter(refreshExcluded));
    FilterMembers(s.LiveCandidates(), RefreshableFilter(refreshExcluded));
    FilterMembers(s.Ranked(), RestFilter(refreshExcluded, Cards(PendingChosen(s, refreshExcluded))));
    RankedAreLive(s);
  }

  lemma CardInCards(cs: seq<Candidate>, card: int)
    ensures card in Cards(cs) <==> exists c :: c in cs && c.Card() == card
  {
    if card in Cards(cs) {
      var i :| 0 <= i < |cs| && Cards(cs)[i] == card;
      assert cs[i] in cs;
    }
    if c :| c in cs && c.Card() == card {
      var i :| 0 <= i < |cs| && cs[i] == c;
      assert Cards(cs)[i] == card;
    }
  }

  /** When the pending candidates fit, membership draws on exactly the refreshable ones. */
  lemma PoolIsRefreshable(s: Session, refreshExcluded: set<int>)
    requires s.Coherent()
    requires |Filter(s.LiveCandidates(), PendingFilter(refreshExcluded))| < s.cfg.refreshLimit
    ensures var pending := PendingChosen(s, refreshExcluded);
      forall c :: c in pending + Filter(s.Ranked(), RestFilter(refreshExcluded, Cards(pending)))
             <==> c in Filter(s.LiveCandidates(), RefreshableFilter(refreshExcluded))
  {
    var pending := PendingChosen(s, refreshExcluded);
    var rest := Filter(s.Ranked(), RestFilter(refreshExcluded, Cards(pending)));
    var pool := Filter(s.LiveCandidates(), RefreshableFilter(refreshExcluded));
    Drawn(s, refreshExcluded);
    forall c ensures c in pending + rest <==> c in pool {
      assert c in pending + rest <==> c in pending || c in rest;
      CardInCards(pending, c.Card());
      if c in pool && c.Card() in Cards(pending) {
        var d :| d in pending && d.Card() == c.Card();
        LiveCardsAreUnique(s, c, d);
      }
    }
  }

  lemma PoolIsDistinct(s: Session, refreshExcluded: set<int>)
    requires s.Coherent()
    ensures var pending := PendingChosen(s, refreshExcluded);
      Distinct(pending + Filter(s.Ranked(), RestFilter(refreshExcluded, Cards(pending))))
  {
    var pending := PendingChosen(s, refreshExcluded);
    var rest := Filter(s.Ranked(), RestFilter(refreshExcluded, Cards(pending)));
    Drawn(s, refreshExcluded);
    LiveAreDistinct(s);
    FilterDistinct(s.LiveCandidates(), PendingFilter(refreshExcluded));
    RankedIsSorted(s);
    FilterDistinct(s.Ranked(), RestFilter(refreshExcluded, Cards(pending)));
    forall i, j | 0 <= i < |pending| && 0 <= j < |rest| ensures pending[i] != rest[j] {
      assert Cards(pending)[i] == pending[i].Card();
      assert rest[j] in rest;
    }
  }

  lemma MembersAreRefreshable(s: Session, refreshExcluded: set<int>)
    ensures forall c :: c in Membership(s, refreshExcluded) ==>
        c in Filter(s.LiveCandidates(), RefreshableFilter(refreshExcluded))
  {
    var pending := PendingChosen(s, refreshExcluded);
    var rest := Filter(s.Ranked(), RestFilter(refreshExcluded, Cards(pending)));
    Drawn(s, refreshExcluded);
    forall c | c in Membership(s, refreshExcluded)
        ensures c in Filter(s.LiveCandidates(), RefreshableFilter(refreshExcluded)) {
      assert c in pending + rest;
      assert c in pending || c in rest;
    }
  }

  lemma PendingAreRefreshable(s: Session, refreshExcluded: set<int>)
    requires s.Coherent()
    ensures |Filter(s.LiveCandidates(), PendingFilter(refreshExcluded))|
        <= |Filter(s.LiveCandidates(), RefreshableFilter(refreshExcluded))|
  {
    var all, pool := Filter(s.LiveCandidates(), PendingFilter(refreshExcluded)),
        Filter(s.LiveCandidates(), RefreshableFilter(refreshExcluded));
    Drawn(s, refreshExcluded);
    LiveAreDistinct(s);
    FilterDistinct(s.LiveCandidates(), PendingFilter(refreshExcluded));
    FilterDistinct(s.LiveCandidates(), RefreshableFilter(refreshExcluded));
    DistinctLength(all);
    DistinctLength(pool);
    SubsetSize(Members(all), Members(pool));
  }

  lemma PoolSize(s: Session, refreshExcluded: set<int>)
    requires s.Coherent()
    requires |Filter(s.LiveCandidates(), PendingFilter(refreshExcluded))| < s.cfg.refreshLimit
    ensures var pending := PendingChosen(s, refreshExcluded);
      |pending + Filter(s.Ranked(), RestFilter(refreshExcluded, Cards(pending)))|
      == |Filter(s.LiveCandidates(), RefreshableFilter(refreshExcluded))|
  {
    var pending, pool := PendingChosen(s, refreshExcluded),
        Filter(s.LiveCandidates(), RefreshableFilter(refreshExcluded));
    var drawn := pending + Filter(s.Ranked(), RestFilter(refreshExcluded, Cards(pending)));
    PoolIsRefreshable(s, refreshExcluded);
    PoolIsDistinct(s, refreshExcluded);
    LiveAreDistinct(s);
    FilterDistinct(s.LiveCandidates(), RefreshableFilter(refreshExcluded));
    DistinctLength(drawn);
    DistinctLength(pool);
    assert Members(drawn) == Members(pool);
  }

  /** Membership has no repetition and as many candidates as the limit and the refreshable ones allow. */
  lemma MembershipIsBounded(s: Session, refreshExcluded: set<int>)
    requires s.Coherent()
    ensures Distinct(Membership(s, refreshExcluded))
    ensures forall c :: c in Membership(s, refreshExcluded) ==>
        c in Filter(s.LiveCandidates(), RefreshableFilter(refreshExcluded))
    ensures |Membership(s, refreshExcluded)|
         == Min(s.cfg.refreshLimit, |Filter(s.LiveCandidates(), RefreshableFilter(refreshExcluded))|)
  {
    MembershipIsDistinct(s, refreshExcluded);
    MembersAreRefreshable(s, refreshExcluded);
    if |Filter(s.LiveCandidates(), PendingFilter(refreshExcluded))| < s.cfg.refreshLimit {
      PoolSize(s, refreshExcluded);
    } else {
      PendingAreRefreshable(s, refreshExcluded);
    }
  }

  /** Pending candidates come first, in slot order; others only follow when no pending one is left out. */
  lemma PendingComesFirst(s: Session, refreshExcluded: set<int>)
    requires s.Coherent()
    ensures PendingChosen(s, refreshExcluded) <= Membership(s, refreshExcluded)
    ensures SortedBy(PendingChosen(s, refreshExcluded), BySlot())
    ensures forall j :: |PendingChosen(s, refreshExcluded)| <= j < |Membership(s, refreshExcluded)| ==>
              Membership(s, refreshExcluded)[j].status == Active
  {
    var all := Filter(s.LiveCandidates(), PendingFilter(refreshExcluded));
    var pending, membership := PendingChosen(s, refreshExcluded), Membership(s, refreshExcluded);
    var rest := Filter(s.Ranked(), RestFilter(refreshExcluded, Cards(pending)));
    LiveInSlotOrder(s);
    FilterSorted(s.LiveCandidates(), PendingFilter(refreshExcluded), BySlot());
    Drawn(s, refreshExcluded);
    forall j | |pending| <= j < |membership| ensures membership[j].status == Active {
      var c := rest[j - |pending|];
      assert membership[j] == c && c in rest;
      if c.status == PendingRefresh {
        assert c in all && pending == all;
        CardInCards(pending, c.Card());
      }
    }
  }

  lemma LiveInSlotOrder(s: Session)
    requires s.Coherent()
    ensures SortedBy(s.LiveCandidates(), BySlot())
  {
    FilterSorted(s.slots, s.LiveFilter(), BySlot());
  }

  /** Stale slots, excluded candidates and cards excluded from the refresh keep every field. */
  lemma OthersUntouched(s: Session, timestamp: real, day: real, refreshExcluded: set<int>, extra: int, i: nat)
    requires s.Coherent() && Refresh(s, timestamp, day, refreshExcluded, extra).Ok? && i < |s.slots|
    requires !s.IsLive(s.slots[i]) || s.slots[i].Card() in refreshExcluded
          || s.slots[i].status == Excluded || s.slots[i].status == ExcludedPendingRefresh
    ensures Refresh(s, timestamp, day, refreshExcluded, extra).value.slots[i] == s.slots[i]
  {
    var transport := Transport(s, refreshExcluded);
    TransportInPlace(s, refreshExcluded);
    MembershipIsBounded(s, refreshExcluded);
    Drawn(s, refreshExcluded);
    FilterMembers(s.slots, s.LiveFilter());
    forall j | 0 <= j < |transport| ensures transport[j].slot != i {
      assert transport[j] in Membership(s, refreshExcluded);
    }
    WriteBackElsewhere(s.slots, transport, Predicted(s.cfg, RowsAt(transport, timestamp, day)).value,
                       timestamp, day, |transport|, i);
  }

  /** Each member is predicted at the target time from its own anchor, and is active afterwards. */
  lemma MembersRefreshed(s: Session, timestamp: real, day: real, refreshExcluded: set<int>, extra: int, c: Candidate)
    requires s.Coherent() && Refresh(s, timestamp, day, refreshExcluded, extra).Ok?
    requires c in Membership(s, refreshExcluded)
    ensures c.slot < |s.slots|
    ensures var d := Refresh(s, timestamp, day, refreshExcluded, extra).value.slots[c.slot];
      && d.status == Active && d.queryTimestamp == timestamp && d.queryDay == day && d.anchor == c.anchor
      && d.id == c.id
      && (d.elapsedDays, d.elapsedSeconds) == ElapsedAt(c, timestamp, day)
      && IsPredictionOf(s, timestamp, day, refreshExcluded, c, d.prediction)
  {
    var transport := Transport(s, refreshExcluded);
    TransportInPlace(s, refreshExcluded);
    MembershipIsBounded(s, refreshExcluded);
    Drawn(s, refreshExcluded);
    var j: nat :| j < |transport| && transport[j] == c;
    var predictions := Predicted(s.cfg, RowsAt(transport, timestamp, day)).value;
    WriteBackAt(s.slots, transport, predictions, timestamp, day, |transport|, j);
    assert IsPredictionAt(s, timestamp, day, refreshExcluded, c, predictions[j], j);
  }

  /** The value predicted for a candidate's own row among the transported ones. */
  ghost predicate IsPredictionOf(s: Session, timestamp: real, day: real, refreshExcluded: set<int>, c: Candidate,
                                 value: Num) {
    exists j: nat :: IsPredictionAt(s, timestamp, day, refreshExcluded, c, value, j)
  }

  ghost predicate IsPredictionAt(s: Session, timestamp: real, day: real, refreshExcluded: set<int>,
                                 c: Candidate, value: Num, j: nat) {
    var transport := Transport(s, refreshExcluded);
    var predicted := Predicted(s.cfg, RowsAt(transport, timestamp, day));
    predicted.Ok? && j < |transport| && transport[j] == c && value == predicted.value[j]
  }

  // ----- No pending candidate waits for ever -----

  function PendingSlots(s: Session): set<nat> {
    set i: nat | i < |s.slots| && s.IsLive(s.slots[i]) && s.slots[i].status == PendingRefresh
  }

  /** The pending candidates that a refresh may take. */
  function PendingOutside(s: Session, refreshExcluded: set<int>): set<nat> {
    set i: nat | i in PendingSlots(s) && s.slots[i].Card() !in refreshExcluded
  }

  function SlotSet(cs: seq<Candidate>): set<nat> {
    set c | c in cs :: c.slot
  }

  lemma LastSlotIsNew(cs: seq<Candidate>)
    requires cs != [] && SortedBy(cs, BySlot())
    ensures cs[|cs| - 1].slot !in SlotSet(cs[..|cs| - 1])
    ensures forall c :: c in cs <==> c in cs[..|cs| - 1] || c == cs[|cs| - 1]
  {
    var front, last := cs[..|cs| - 1], cs[|cs| - 1];
    assert cs == front + [last];
    forall c | c in front ensures c.slot < last.slot {
      var i :| 0 <= i < |front| && front[i] == c;
      assert BySlot()(cs[i], cs[|cs| - 1]);
    }
  }

  lemma {:induction false} SlotSetSize(cs: seq<Candidate>)
    requires SortedBy(cs, BySlot())
    ensures |SlotSet(cs)| == |cs|
  {
    if cs != [] {
      var front, last := cs[..|cs| - 1], cs[|cs| - 1];
      SlotSetSize(front);
      LastSlotIsNew(cs);
      assert SlotSet(cs) == SlotSet(front) + {last.slot};
    }
  }

  lemma PendingSlotsAreTheList(s: Session, refreshExcluded: set<int>)
    requires s.Coherent()
    ensures SlotSet(Filter(s.LiveCandidates(), PendingFilter(refreshExcluded))) == PendingOutside(s, refreshExcluded)
    ensures |Filter(s.LiveCandidates(), PendingFilter(refreshExcluded))| == |PendingOutside(s, refreshExcluded)|
  {
    var list := Filter(s.LiveCandidates(), PendingFilter(refreshExcluded));
    LiveInSlotOrder(s);
    FilterSorted(s.LiveCandidates(), PendingFilter(refreshExcluded), BySlot());
    SlotSetSize(list);
    Drawn(s, refreshExcluded);
    FilterMembers(s.slots, s.LiveFilter());
    forall i ensures i in SlotSet(list) <==> i in PendingOutside(s, refreshExcluded) {
      if i in SlotSet(list) {
        var c :| c in list && c.slot == i;
        LiveIsItsSlot(s, c);
      }
      if i in PendingOutside(s, refreshExcluded) {
        assert s.slots[i] in list;
      }
    }
  }

  /** A refresh settles exactly the chosen pending candidates: the limit of those it may take, or all of them. */
  lemma RefreshSettlesPending(s: Session, timestamp: real, day: real, refreshExcluded: set<int>, extra: int)
    requires Inv(s) && Refresh(s, timestamp, day, refreshExcluded, extra).Ok?
    ensures var t := Refresh(s, timestamp, day, refreshExcluded, extra).value;
      && PendingSlots(t) == PendingSlots(s) - SlotSet(PendingChosen(s, refreshExcluded))
      && |PendingSlots(t)| == |PendingSlots(s)| - Min(s.cfg.refreshLimit, |PendingOutside(s, refreshExcluded)|)
  {
    var t, pending := Refresh(s, timestamp, day, refreshExcluded, extra).value, PendingChosen(s, refreshExcluded);
    RefreshKeepsInv(s, timestamp, day, refreshExcluded, extra);
    forall i: nat | i < |s.slots| ensures i in PendingSlots(t) <==> i in PendingSlots(s) && i !in SlotSet(pending) {
      PendingAfter(s, timestamp, day, refreshExcluded, extra, i);
    }
    assert PendingSlots(t) == PendingSlots(s) - SlotSet(pending);
    ChosenSize(s, refreshExcluded);
  }

  /** The chosen pending candidates are the limit of those a refresh may take, or all of them. */
  lemma ChosenSize(s: Session, refreshExcluded: set<int>)
    requires s.Coherent()
    ensures SlotSet(PendingChosen(s, refreshExcluded)) <= PendingOutside(s, refreshExcluded) <= PendingSlots(s)
    ensures |PendingSlots(s) - SlotSet(PendingChosen(s, refreshExcluded))|
         == |PendingSlots(s)| - Min(s.cfg.refreshLimit, |PendingOutside(s, refreshExcluded)|)
  {
    var all, chosen := Filter(s.LiveCandidates(), PendingFilter(refreshExcluded)), PendingChosen(s, refreshExcluded);
    PendingSlotsAreTheList(s, refreshExcluded);
    PendingComesFirst(s, refreshExcluded);
    SlotSetSize(chosen);
    assert SlotSet(chosen) <= SlotSet(all) by {
      assert forall c :: c in chosen ==> c in all;
    }
    SubsetSize(SlotSet(chosen), PendingSlots(s));
  }

  lemma PendingAfter(s: Session, timestamp: real, day: real, refreshExcluded: set<int>, extra: int, i: nat)
    requires Inv(s) && Refresh(s, timestamp, day, refreshExcluded, extra).Ok? && i < |s.slots|
    ensures i in PendingSlots(Refresh(s, timestamp, day, refreshExcluded, extra).value)
       <==> i in PendingSlots(s) && i !in SlotSet(PendingChosen(s, refreshExcluded))
  {
    var membership := Membership(s, refreshExcluded);
    var c := s.slots[i];
    var transport := Transport(s, refreshExcluded);
    TransportInPlace(s, refreshExcluded);
    var predictions := Predicted(s.cfg, RowsAt(transport, timestamp, day)).value;
    RefreshedSlot(s, transport, predictions, timestamp, day, i);
    PendingComesFirst(s, refreshExcluded);
    Drawn(s, refreshExcluded);
    if c in membership {
      MembersRefreshed(s, timestamp, day, refreshExcluded, extra, c);
      if i in PendingSlots(s) {
        var j :| 0 <= j < |membership| && membership[j] == c;
        assert j < |PendingChosen(s, refreshExcluded)|;
        assert c in PendingChosen(s, refreshExcluded);
      }
    } else {
      NotMemberUntouched(s, timestamp, day, refreshExcluded, extra, i);
      if i in SlotSet(PendingChosen(s, refreshExcluded)) {
        var d :| d in PendingChosen(s, refreshExcluded) && d.slot == i;
        LiveIsItsSlot(s, d);
      }
    }
  }

  lemma NotMemberUntouched(s: Session, timestamp: real, day: real, refreshExcluded: set<int>, extra: int, i: nat)
    requires s.Coherent() && Refresh(s, timestamp, day, refreshExcluded, extra).Ok? && i < |s.slots|
    requires s.slots[i] !in Membership(s, refreshExcluded)
    ensures Refresh(s, timestamp, day, refreshExcluded, extra).value.slots[i] == s.slots[i]
  {
    var transport := Transport(s, refreshExcluded);
    TransportInPlace(s, refreshExcluded);
    forall j | 0 <= j < |transport| ensures transport[j].slot != i {
      assert transport[j] in Membership(s, refreshExcluded);
    }
    WriteBackElsewhere(s.slots, transport, Predicted(s.cfg, RowsAt(transport, timestamp, day)).value,
                       timestamp, day, |transport|, i);
  }

  /** The arguments of one refresh. */
  datatype Moment = Moment(timestamp: real, day: real, refreshExcluded: set<int>, extra: int)

  /** The session after refreshing at each moment in turn; absent when a prediction fails. */
  function Refreshes(s: Session, moments: seq<Moment>): (r: Option<Session>)
    requires Inv(s)
    ensures r.Some? ==> Inv(r.value) && r.value.cfg == s.cfg
  {
    if moments == [] then Some(s)
    else match Refreshes(s, moments[..|moments| - 1])
      case None => None
      case Some(t) =>
        var m := moments[|moments| - 1];
        match Refresh(t, m.timestamp, m.day, m.refreshExcluded, m.extra)
        case Err(_) => None
        case Ok(u) => RefreshKeepsInv(t, m.timestamp, m.day, m.refreshExcluded, m.extra); Some(u)
  }

  ghost predicate NeverExcluded(moments: seq<Moment>, card: int) {
    forall k :: 0 <= k < |moments| ==> card !in moments[k].refreshExcluded
  }

  lemma {:induction false} RefreshesKeepLive(s: Session, moments: seq<Moment>, i: nat)
    requires Inv(s) && Refreshes(s, moments).Some? && i < |s.slots| && s.IsLive(s.slots[i])
    requires s.slots[i].status == Active || s.slots[i].status == PendingRefresh
    ensures var t := Refreshes(s, moments).value;
      && |t.slots| == |s.slots| && t.live == s.live && t.slots[i].Card() == s.slots[i].Card()
      && t.slots[i].anchor == s.slots[i].anchor
      && (t.slots[i].status == Active || t.slots[i].status == PendingRefresh)
  {
    if moments != [] {
      var front, m := moments[..|moments| - 1], moments[|moments| - 1];
      RefreshesKeepLive(s, front, i);
      var u := Refreshes(s, front).value;
      var transport := Transport(u, m.refreshExcluded);
      TransportInPlace(u, m.refreshExcluded);
      RefreshedSlot(u, transport, Predicted(u.cfg, RowsAt(transport, m.timestamp, m.day)).value, m.timestamp, m.day, i);
      if u.slots[i] in Membership(u, m.refreshExcluded) {
        MembersRefreshed(u, m.timestamp, m.day, m.refreshExcluded, m.extra, u.slots[i]);
      } else {
        NotMemberUntouched(u, m.timestamp, m.day, m.refreshExcluded, m.extra, i);
      }
    }
  }

  /** What the last refresh does to the pending candidates. */
  lemma LastRefresh(s: Session, moments: seq<Moment>)
    requires Inv(s) && moments != [] && Refreshes(s, moments).Some?
    ensures var front, m := moments[..|moments| - 1], moments[|moments| - 1];
      && Refreshes(s, front).Some?
      && SettledBy(Refreshes(s, front).value, m.refreshExcluded, Refreshes(s, moments).value)
  {
    var front, m := moments[..|moments| - 1], moments[|moments| - 1];
    RefreshSettlesPending(Refreshes(s, front).value, m.timestamp, m.day, m.refreshExcluded, m.extra);
  }

  ghost predicate SettledBy(s: Session, refreshExcluded: set<int>, t: Session) {
    && t.cfg == s.cfg
    && PendingSlots(t) == PendingSlots(s) - SlotSet(PendingChosen(s, refreshExcluded))
    && |PendingSlots(t)| == |PendingSlots(s)| - Min(s.cfg.refreshLimit, |PendingOutside(s, refreshExcluded)|)
  }

  /** A refresh that could have taken a pending candidate and did not has taken as many others as it may. */
  lemma WaitingMeansFull(s: Session, refreshExcluded: set<int>, t: Session, i: nat)
    requires s.Coherent() && SettledBy(s, refreshExcluded, t) && i in PendingOutside(s, refreshExcluded)
        && i in PendingSlots(t)
    ensures |PendingSlots(t)| == |PendingSlots(s)| - s.cfg.refreshLimit
  {
    var all := Filter(s.LiveCandidates(), PendingFilter(refreshExcluded));
    PendingSlotsAreTheList(s, refreshExcluded);
    assert i in SlotSet(all);
    assert PendingChosen(s, refreshExcluded) != all;
  }

  /** While a pending candidate waits, though never excluded, each refresh serves as many others as it may. */
  lemma {:induction false} WaitingServesOthers(s: Session, moments: seq<Moment>, i: nat)
    requires Inv(s) && Refreshes(s, moments).Some? && i in PendingSlots(s) && NeverExcluded(moments, s.slots[i].Card())
    requires i in PendingSlots(Refreshes(s, moments).value)
    ensures |PendingSlots(Refreshes(s, moments).value)| == |PendingSlots(s)| - |moments| * s.cfg.refreshLimit
  {
    if moments != [] {
      var front, m := moments[..|moments| - 1], moments[|moments| - 1];
      var u, t := Refreshes(s, front).value, Refreshes(s, moments).value;
      LastRefresh(s, moments);
      RefreshesKeepLive(s, front, i);
      WaitingServesOthers(s, front, i);
      WaitingMeansFull(u, m.refreshExcluded, t, i);
      OneMore(|moments|, s.cfg.refreshLimit);
    }
  }

  /**
   A pending candidate never excluded from a refresh is active once `n * limit` reaches the number of pending ones.
   */
  lemma EveryPendingIsServed(s: Session, moments: seq<Moment>, i: nat)
    requires Inv(s) && Refreshes(s, moments).Some? && i in PendingSlots(s) && NeverExcluded(moments, s.slots[i].Card())
    requires |moments| * s.cfg.refreshLimit >= |PendingSlots(s)|
    ensures var t := Refreshes(s, moments).value;
      i < |t.slots| && t.IsLive(t.slots[i]) && t.slots[i].Card() == s.slots[i].Card() && t.slots[i].status == Active
  {
    RefreshesKeepLive(s, moments, i);
    if i in PendingSlots(Refreshes(s, moments).value) {
      WaitingServesOthers(s, moments, i);
      assert false;
    }
  }

  function Left(pending: nat, refreshes: nat, limit: nat): nat {
    Max(0, pending - refreshes * limit)
  }

  lemma LeftStep(pending: nat, refreshes: nat, limit: nat)
    ensures Max(0, Left(pending, refreshes, limit) - limit) == Left(pending, refreshes + 1, limit)
  {
    assert (refreshes + 1) * limit == refreshes * limit + limit;
  }

  /** After `n` refreshes at most `n * limit` pending candidates have been served. */
  lemma {:induction false} PendingDecreasesSlowly(s: Session, moments: seq<Moment>)
    requires Inv(s) && Refreshes(s, moments).Some?
    ensures |PendingSlots(Refreshes(s, moments).value)| >= Left(|PendingSlots(s)|, |moments|, s.cfg.refreshLimit)
  {
    if moments != [] {
      var front, m := moments[..|moments| - 1], moments[|moments| - 1];
      PendingDecreasesSlowly(s, front);
      LastRefresh(s, moments);
      OutsideSize(Refreshes(s, front).value, m.refreshExcluded);
      LeftStep(|PendingSlots(s)|, |front|, s.cfg.refreshLimit);
    }
  }

  /** And exactly so many, or all, when none was excluded from a refresh. */
  lemma {:induction false} PendingDecreases(s: Session, moments: seq<Moment>)
    requires Inv(s) && Refreshes(s, moments).Some?
    requires forall k :: 0 <= k < |moments| ==> moments[k].refreshExcluded == {}
    ensures |PendingSlots(Refreshes(s, moments).value)| == Left(|PendingSlots(s)|, |moments|, s.cfg.refreshLimit)
  {
    if moments != [] {
      var front, m := moments[..|moments| - 1], moments[|moments| - 1];
      PendingDecreases(s, front);
      LastRefresh(s, moments);
      OutsideSize(Refreshes(s, front).value, m.refreshExcluded);
      LeftStep(|PendingSlots(s)|, |front|, s.cfg.refreshLimit);
    }
  }

  lemma OutsideSize(s: Session, refreshExcluded: set<int>)
    ensures |PendingOutside(s, refreshExcluded)| <= |PendingSlots(s)|
    ensures refreshExcluded == {} ==> |PendingOutside(s, refreshExcluded)| == |PendingSlots(s)|
  {
    SubsetSize(PendingOutside(s, refreshExcluded), PendingSlots(s));
    if refreshExcluded == {} {
      assert PendingOutside(s, refreshExcluded) == PendingSlots(s);
    }
  }
}
