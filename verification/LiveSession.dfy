/**
 The session as the program keeps it: mutable candidate objects, a slot list that may hold stale
 objects, and an index from card to object. Every method is tied to its function in module LiveSpec.
 */
module LiveSession {
  import opened Wrappers
  import opened Lists
  import opened LiveSpec
  import opened LiveRanking
  import opened LiveInvariant
  import opened LiveObjects

  class LivePredictionSession {
    const cfg: Config
    var targetTimestamp: real
    var targetDay: real
    var retentionExtra: int
    var generation: nat
    var byId: map<int, ReferenceCandidate>
    var slots: seq<ReferenceCandidate>
    var lastMembership: seq<int>
    var lastTransport: seq<int>

    /** The object a card's index entry names is the object in its slot. */
    ghost predicate Valid()
      reads this, slots
    {
      && (forall i :: 0 <= i < |slots| ==> slots[i].slot == i)
      && (forall card :: card in byId ==>
            byId[card] in slots && slots[byId[card].slot] == byId[card] && byId[card].id.cardId == card)
    }

    ghost function Live(): map<int, nat>
      reads this, slots
      requires Valid()
    {
      map card | card in byId :: byId[card].slot
    }

    ghost function View(): (s: Session)
      reads this, slots
      requires Valid()
      ensures s.Coherent()
    {
      Session(cfg, targetTimestamp, targetDay, retentionExtra, generation, Values(slots), Live(), lastMembership,
              lastTransport)
    }

    constructor (cfg: Config, timestamp: real, day: real, cs: seq<ReferenceCandidate>, predictions: seq<Num>)
      requires InOrder(cs) && |predictions| == |cs|
      modifies cs
      ensures Valid() && this.cfg == cfg
      ensures View()
          == Session(cfg, timestamp, day, 0, 1, Activated(old(Values(cs)), predictions), Index(old(Values(cs))), [], [])
    {
      this.cfg, targetTimestamp, targetDay, retentionExtra, generation := cfg, timestamp, day, 0, 1;
      byId, slots, lastMembership, lastTransport := map[], [], [], [];
      new;
      InstallUniverse(cs, predictions);
    }

    /** The identity test of the program is liveness. */
    lemma IdentityIsLiveness(c: ReferenceCandidate)
      requires Valid() && c in slots
      ensures View().IsLive(c.Value()) <==> c.id.cardId in byId && byId[c.id.cardId] == c
    {
    }

    lemma LiveObject(c: ReferenceCandidate)
      requires Valid() && c in slots && c.id.cardId in byId && byId[c.id.cardId] == c
      ensures c.Value() in View().LiveCandidates()
    {
      FilterMembers(Values(slots), View().LiveFilter());
      assert Values(slots)[c.slot] == c.Value();
    }

    // ----- Ranking -----

    /** The live candidates in rank order, listed from the index in whatever order it yields them. */
    method Ordered() returns (ranked: seq<ReferenceCandidate>)
      requires Valid()
      ensures Values(ranked) == View().Ranked()
      ensures forall c :: c in ranked ==> c in slots && c.id.cardId in byId && byId[c.id.cardId] == c
    {
      var remaining := byId.Keys;
      ghost var listed: seq<Candidate> := [];
      ranked := [];
      while remaining != {}
        invariant remaining <= byId.Keys
        invariant forall c :: c in ranked ==> c in slots && c.id.cardId in byId && byId[c.id.cardId] == c
        invariant Values(ranked) == SortBy(listed, Before(cfg, retentionExtra))
        invariant Distinct(listed)
        invariant forall v :: v in listed <==> v.Card() in byId && v.Card() !in remaining && v == byId[v.Card()].Value()
        decreases |remaining|
      {
        var card := AnyOf(remaining);
        remaining := remaining - {card};
        ranked := InsertObject(byId[card], ranked, Before(cfg, retentionExtra));
        var value := byId[card].Value();
        assert (listed + [value])[..|listed|] == listed;
        listed := listed + [value];
      }
      forall v ensures v in listed <==> v in View().LiveCandidates() {
        ListedIsLive(v);
      }
      RankingIgnoresInsertionOrder(View(), listed);
    }

    lemma ListedIsLive(v: Candidate)
      requires Valid()
      ensures v.Card() in byId && v == byId[v.Card()].Value() <==> v in View().LiveCandidates()
    {
      if v in View().LiveCandidates() {
        LiveIsItsSlot(View(), v);
      } else if v.Card() in byId && v == byId[v.Card()].Value() {
        LiveObject(byId[v.Card()]);
      }
    }

    // ----- Selection -----

    method TakeSelected(eligible: seq<ReferenceCandidate>, selectLimit: nat) returns (selected: seq<Selection>)
      ensures selected == Mapped(Take(selectLimit, Values(eligible)), Selected())
    {
      selected := [];
      var count := if |eligible| < selectLimit then |eligible| else selectLimit;
      for k := 0 to count
        invariant |selected| == k
        invariant forall i :: 0 <= i < k ==> selected[i] == Selected()(eligible[i].Value())
      {
        selected := selected + [Selection(eligible[k].id.cardId, eligible[k].prediction, Target(eligible[k].Value()))];
      }
    }

    method FindLeast(active: seq<ReferenceCandidate>) returns (least: Option<int>)
      requires cfg.line.Sound()
      ensures least == LeastBoundary(cfg.line, retentionExtra, Values(active))
    {
      least := None;
      ghost var values := Values(active);
      for k := 0 to |active|
        invariant least == LeastBoundary(cfg.line, retentionExtra, values[..k])
      {
        assert values[..k + 1][..k] == values[..k];
        var boundary := FindBoundary(cfg.line, retentionExtra, active[k]);
        if boundary.Some? && (least.None? || boundary.value < least.value) {
          least := boundary;
        }
      }
      assert values[..|active|] == values;
    }

    method SelectFrom(ghost s: Session, ranked: seq<ReferenceCandidate>, selectLimit: nat, excluded: set<int>,
                      refreshedCount: nat)
      returns (r: RefreshResult)
      requires cfg.line.Sound() && s.cfg == cfg && s.extra == retentionExtra && s.generation == generation
      requires Values(ranked) == s.Ranked()
      ensures r == SelectionResult(s, selectLimit, excluded, refreshedCount)
    {
      var active := FilterObjects(ranked, ActiveFilter(excluded));
      var eligible := FilterObjects(active, EligibleFilter(cfg.line, retentionExtra));
      var selected := TakeSelected(eligible, selectLimit);
      var least := FindLeast(active);
      r := RefreshResult(generation, refreshedCount, |eligible|, |active|, selected, least);
    }

    method CurrentSelection(selectLimit: nat, excluded: set<int>, refreshedCount: nat) returns (r: RefreshResult)
      requires Valid() && cfg.line.Sound()
      ensures Valid() && View() == old(View())
      ensures r == SelectionResult(View(), selectLimit, excluded, refreshedCount)
    {
      ghost var before := View();
      var ranked := Ordered();
      r := SelectFrom(before, ranked, selectLimit, excluded, refreshedCount);
      assert View() == before;
    }

    // ----- Refresh -----

    /** The pending live candidates among the first slots. */
    static ghost function PendingAmong(s: Session, refreshExcluded: set<int>, i: nat): seq<Candidate>
      requires i <= |s.slots|
    {
      Filter(Filter(s.slots[..i], s.LiveFilter()), PendingFilter(refreshExcluded))
    }

    static lemma PendingStep(s: Session, refreshExcluded: set<int>, i: nat)
      requires i < |s.slots|
      ensures PendingAmong(s, refreshExcluded, i + 1)
           == PendingAmong(s, refreshExcluded, i)
            + (if s.IsLive(s.slots[i]) && s.slots[i].status == PendingRefresh
                && s.slots[i].Card() !in refreshExcluded then [s.slots[i]] else [])
    {
      assert s.slots[..i + 1] == s.slots[..i] + [s.slots[i]];
      FilterSnoc(s.slots[..i], s.slots[i], s.LiveFilter());
      FilterSnoc(Filter(s.slots[..i], s.LiveFilter()), s.slots[i], PendingFilter(refreshExcluded));
    }

    static lemma PendingDone(s: Session, refreshExcluded: set<int>, i: nat)
      requires i <= |s.slots| && |PendingAmong(s, refreshExcluded, i)| <= s.cfg.refreshLimit
      requires i == |s.slots| || |PendingAmong(s, refreshExcluded, i)| == s.cfg.refreshLimit
      ensures PendingChosen(s, refreshExcluded) == PendingAmong(s, refreshExcluded, i)
    {
      assert s.slots == s.slots[..i] + s.slots[i..];
      FilterConcat(s.slots[..i], s.slots[i..], s.LiveFilter());
      FilterConcat(Filter(s.slots[..i], s.LiveFilter()), Filter(s.slots[i..], s.LiveFilter()),
                   PendingFilter(refreshExcluded));
    }

    /** A scan over the slots, stale ones skipped by identity, up to the limit. */
    method ChoosePending(ghost s: Session, refreshExcluded: set<int>) returns (membership: seq<ReferenceCandidate>)
      requires Valid() && s == View()
      ensures Values(membership) == PendingChosen(s, refreshExcluded)
      ensures forall c :: c in membership ==> c in slots
    {
      forall i | 0 <= i < |slots|
          ensures s.IsLive(s.slots[i]) <==> s.slots[i].Card() in byId && byId[s.slots[i].Card()] == slots[i] {
        IdentityIsLiveness(slots[i]);
      }
      membership := ScanPending(s, slots, byId, cfg.refreshLimit, refreshExcluded);
    }

    static method ScanPending(ghost s: Session, all: seq<ReferenceCandidate>, index: map<int, ReferenceCandidate>,
                              limit: nat, refreshExcluded: set<int>)
      returns (membership: seq<ReferenceCandidate>)
      requires Values(all) == s.slots && limit == s.cfg.refreshLimit
      requires forall i :: 0 <= i < |all| ==>
          (s.IsLive(s.slots[i]) <==> s.slots[i].Card() in index && index[s.slots[i].Card()] == all[i])
      ensures Values(membership) == PendingChosen(s, refreshExcluded)
      ensures forall c :: c in membership ==> c in all
    {
      membership := [];
      var i := 0;
      while i < |all| && |membership| < limit
        invariant i <= |all|
        invariant Values(membership) == PendingAmong(s, refreshExcluded, i)
        invariant |membership| <= limit
        invariant forall c :: c in membership ==> c in all
      {
        var c := all[i];
        assert s.slots[i] == c.Value();
        PendingStep(s, refreshExcluded, i);
        if c.id.cardId in index && index[c.id.cardId] == c && c.status == PendingRefresh
            && c.id.cardId !in refreshExcluded {
          ValuesSnoc(membership, c);
          membership := membership + [c];
        }
        i := i + 1;
      }
      PendingDone(s, refreshExcluded, i);
    }

    /** Pending candidates first, then the best ranked others. */
    method ChooseMembership(ghost s: Session, refreshExcluded: set<int>) returns (membership: seq<ReferenceCandidate>)
      requires Valid() && s == View()
      ensures Values(membership) == Membership(s, refreshExcluded)
      ensures forall c :: c in membership ==> c in slots
    {
      var ordered := Ordered();
      var pending := ChoosePending(s, refreshExcluded);
      RankedCardsDiffer(s);
      forall i, j | 0 <= i < j < |ordered| ensures ordered[i].id.cardId != ordered[j].id.cardId {
        assert s.Ranked()[i].Card() != s.Ranked()[j].Card();
      }
      membership := ScanRanking(s.Ranked(), ordered, pending, cfg.refreshLimit, refreshExcluded);
    }

    static lemma RankedCardsDiffer(s: Session)
      requires s.Coherent()
      ensures forall i, j :: 0 <= i < j < |s.Ranked()| ==> s.Ranked()[i].Card() != s.Ranked()[j].Card()
    {
      RankedIsSorted(s);
      forall i, j | 0 <= i < j < |s.Ranked()| ensures s.Ranked()[i].Card() != s.Ranked()[j].Card() {
        if s.Ranked()[i].Card() == s.Ranked()[j].Card() {
          LiveCardsAreUnique(s, s.Ranked()[i], s.Ranked()[j]);
        }
      }
    }
  
    /** The transported objects take their predictions; index and slots stay coherent. */
    method WritePredictions(ghost values: seq<Candidate>, transport: seq<ReferenceCandidate>, rows: seq<Row>,
                            predictions: seq<Num>, timestamp: real, day: real)
      requires Valid() && Values(transport) == values && InPlace(Values(slots), values)
      requires forall c :: c in transport ==> c in slots
      requires rows == RowsAt(values, timestamp, day) && |predictions| == |rows|
      modifies slots
      ensures Valid() && Live() == old(Live())
      ensures Values(slots) == WriteBack(old(Values(slots)), values, predictions, timestamp, day, |values|)
    {
      ObjectsInPlace(transport, values);
      TakePredictions(slots, values, transport, rows, predictions, timestamp, day);
    }

    static lemma RefreshSucceeds(s: Session, predictions: seq<Num>, timestamp: real, day: real,
                                 refreshExcluded: set<int>, extra: int)
      requires s.Coherent() && InPlace(s.slots, Transport(s, refreshExcluded))
      requires Predicted(s.cfg, RowsAt(Transport(s, refreshExcluded), timestamp, day)) == Ok(predictions)
      ensures var transport := Transport(s, refreshExcluded);
        LiveSpec.Refresh(s, timestamp, day, refreshExcluded, extra)
        == Ok(Session(s.cfg, timestamp, day, extra, s.generation + 1,
                      WriteBack(s.slots, transport, predictions, timestamp, day, |transport|), s.live,
                      Cards(Membership(s, refreshExcluded)), Cards(transport)))
    {
    }

    static lemma RefreshFails(s: Session, e: LiveError, timestamp: real, day: real, refreshExcluded: set<int>,
                              extra: int)
      requires s.Coherent() && Predicted(s.cfg, RowsAt(Transport(s, refreshExcluded), timestamp, day)) == Err(e)
      ensures LiveSpec.Refresh(s, timestamp, day, refreshExcluded, extra) == Err(e)
    {
    }

    /** Moves the session to the target time. */
    method Advance(timestamp: real, day: real, extra: int, members: seq<int>, transported: seq<int>)
      requires Valid()
      modifies this`retentionExtra, this`targetTimestamp, this`targetDay, this`generation, this`lastMembership,
        this`lastTransport
      ensures Valid()
      ensures View()
          == Session(cfg, timestamp, day, extra, old(generation) + 1, old(Values(slots)), old(Live()), members,
                     transported)
    {
      ghost var values, live := Values(slots), Live();
      retentionExtra := extra;
      targetTimestamp := timestamp;
      targetDay := day;
      generation := generation + 1;
      lastMembership := members;
      lastTransport := transported;
      assert Values(slots) == values && Live() == live;
    }

    lemma ObjectsInPlace(transport: seq<ReferenceCandidate>, values: seq<Candidate>)
      requires Valid() && Values(transport) == values && forall c :: c in transport ==> c in slots
      ensures forall j :: 0 <= j < |transport| ==> values[j].slot < |slots| && slots[values[j].slot] == transport[j]
    {
      forall j | 0 <= j < |transport| ensures values[j].slot < |slots| && slots[values[j].slot] == transport[j] {
        assert transport[j] in slots;
      }
    }

    /** The rows a refresh hands to the predictor, and the objects they belong to. */
    method PrepareRefresh(ghost s: Session, timestamp: real, day: real, refreshExcluded: set<int>)
      returns (transport: seq<ReferenceCandidate>, rows: seq<Row>, members: seq<int>, transported: seq<int>)
      requires Valid() && s == View()
      ensures Values(transport) == Transport(s, refreshExcluded) && forall c :: c in transport ==> c in slots
      ensures rows == RowsAt(Transport(s, refreshExcluded), timestamp, day)
      ensures members == Cards(Membership(s, refreshExcluded)) && transported == Cards(Transport(s, refreshExcluded))
      ensures Valid() && View() == s
    {
      var membership := ChooseMembership(s, refreshExcluded);
      transport, rows, members, transported := Transported(membership, timestamp, day);
    }

    static method Transported(membership: seq<ReferenceCandidate>, timestamp: real, day: real)
      returns (transport: seq<ReferenceCandidate>, rows: seq<Row>, members: seq<int>, transported: seq<int>)
      ensures Values(transport) == SortBy(Values(membership), BySlot())
      ensures forall c :: c in transport ==> c in membership
      ensures rows == RowsAt(SortBy(Values(membership), BySlot()), timestamp, day)
      ensures members == Cards(Values(membership)) && transported == Cards(SortBy(Values(membership), BySlot()))
    {
      members := CardsOf(membership);
      transport := SortObjects(membership, BySlot());
      rows := RowsFor(transport, timestamp, day);
      transported := CardsOf(transport);
    }

    /** Installs the predictions of a refresh. */
    method Commit(ghost values: seq<Candidate>, transport: seq<ReferenceCandidate>, rows: seq<Row>,
                  predictions: seq<Num>,
                  timestamp: real, day: real, extra: int, members: seq<int>, transported: seq<int>)
      requires Valid() && Values(transport) == values && InPlace(Values(slots), values)
      requires forall c :: c in transport ==> c in slots
      requires rows == RowsAt(values, timestamp, day) && |predictions| == |rows|
      modifies this, slots
      ensures Valid() && slots == old(slots)
      ensures View() == Session(cfg, timestamp, day, extra, old(generation) + 1,
                                WriteBack(old(Values(slots)), values, predictions, timestamp, day, |values|),
                                old(Live()), members, transported)
    {
      WritePredictions(values, transport, rows, predictions, timestamp, day);
      Advance(timestamp, day, extra, members, transported);
    }

    /** Predicts before it writes, so that a failed prediction leaves everything as it was. */
    method TryRefresh(ghost s: Session, timestamp: real, day: real, refreshExcluded: set<int>, extra: int)
      returns (error: Option<LiveError>, count: nat)
      requires Valid() && s == View()
      modifies this, slots
      ensures Valid() && slots == old(slots)
      ensures match LiveSpec.Refresh(s, timestamp, day, refreshExcluded, extra)
        case Err(e) => error == Some(e) && View() == s
        case Ok(t) => error == None && View() == t && count == |t.lastTransport|
    {
      var transport, rows, members, transported := PrepareRefresh(s, timestamp, day, refreshExcluded);
      var predicted := Predicted(cfg, rows);
      if predicted.Err? {
        RefreshFails(s, predicted.error, timestamp, day, refreshExcluded, extra);
        return Some(predicted.error), 0;
      }
      TransportInPlace(s, refreshExcluded);
      Commit(Transport(s, refreshExcluded), transport, rows, predicted.value, timestamp, day, extra, members,
             transported);
      RefreshSucceeds(s, predicted.value, timestamp, day, refreshExcluded, extra);
      return None, |transported|;
    }

    /** The selection after a refresh that reached its goal, or the goal's error. */
    method Report(ghost goal: Result<Session, LiveError>, error: Option<LiveError>, count: nat, selectLimit: nat,
                  excluded: set<int>)
      returns (r: Result<RefreshResult, LiveError>)
      requires Valid() && cfg.line.Sound()
      requires match goal
        case Err(e) => error == Some(e)
        case Ok(t) => error == None && View() == t && count == |t.lastTransport|
      ensures Valid() && View() == old(View())
      ensures match goal
        case Err(e) => r == Err(e)
        case Ok(t) => t.cfg.line.Sound() && r == Ok(SelectionResult(t, selectLimit, excluded, |t.lastTransport|))
    {
      if error.Some? {
        return Err(error.value);
      }
      var result := CurrentSelection(selectLimit, excluded, count);
      return Ok(result);
    }

    method Refresh(timestamp: real, day: real, selectLimit: nat, excluded: set<int>, refreshExcluded: set<int>,
                   extra: int)
      returns (r: Result<RefreshResult, LiveError>)
      requires Valid() && cfg.line.Sound()
      modifies this, slots
      ensures Valid() && slots == old(slots)
      ensures match LiveSpec.Refresh(old(View()), timestamp, day, refreshExcluded, extra)
        case Err(e) => r == Err(e) && View() == old(View())
        case Ok(t) => View() == t && r == Ok(SelectionResult(t, selectLimit, excluded, |t.lastTransport|))
    {
      ghost var s := View();
      ghost var goal := LiveSpec.Refresh(s, timestamp, day, refreshExcluded, extra);
      var error, count := TryRefresh(s, timestamp, day, refreshExcluded, extra);
      r := Report(goal, error, count, selectLimit, excluded);
    }

    // ----- Installing a universe -----

    /** Candidates become the whole universe, predicted and active. */
    method InstallUniverse(cs: seq<ReferenceCandidate>, predictions: seq<Num>)
      requires InOrder(cs) && |predictions| == |cs|
      modifies this`slots, this`byId, cs
      ensures Valid() && slots == cs
      ensures Values(slots) == Activated(old(Values(cs)), predictions) && Live() == Index(old(Values(cs)))
    {
      ghost var places := Index(Values(cs));
      var index := IndexObjects(cs);
      Activate(cs, predictions);
      Adopt(cs, index, places);
    }

    method Adopt(cs: seq<ReferenceCandidate>, index: map<int, ReferenceCandidate>, ghost places: map<int, nat>)
      requires InOrder(cs) && index.Keys == places.Keys
      requires forall card :: card in places ==>
        places[card] < |cs| && index[card] == cs[places[card]] && index[card].id.cardId == card
      modifies this`slots, this`byId
      ensures Valid() && slots == cs && Live() == places
    {
      slots := cs;
      byId := index;
      assert forall card :: card in byId ==> byId[card].slot == places[card];
      assert Live() == places;
    }

    /** The end of both reconciliations: predict, then install and move to the target time. */
    method TryInstall(cs: seq<ReferenceCandidate>, timestamp: real, day: real, extra: int)
      returns (error: Option<LiveError>)
      requires Valid() && InOrder(cs) && forall c :: c in cs ==> c !in slots
      modifies this, cs
      ensures Valid()
      ensures match Install(old(View()), old(Values(cs)), timestamp, day, extra)
        case Err(e) => error == Some(e) && View() == old(View()) && slots == old(slots)
        case Ok(t) => error == None && View() == t && slots == cs
    {
      var predicted := PredictInitially(cfg, cs);
      if predicted.Err? {
        return Some(predicted.error);
      }
      var cards := CardsOf(cs);
      InstallUniverse(cs, predicted.value);
      Advance(timestamp, day, extra, cards, cards);
      return None;
    }

    method ReconcileCandidates(seeds: seq<Seed>, timestamp: real, day: real, selectLimit: nat, excluded: set<int>,
                               extra: int)
      returns (r: Result<RefreshResult, LiveError>)
      requires Valid() && cfg.line.Sound()
      modifies this
      ensures Valid()
      ensures match LiveSpec.ReconcileCandidates(old(View()), seeds, timestamp, day, extra)
        case Err(e) => r == Err(e) && View() == old(View())
        case Ok(t) => View() == t && r == Ok(SelectionResult(t, selectLimit, excluded, |seeds|))
    {
      var error := TryReconcileCandidates(seeds, timestamp, day, extra);
      if error.Some? {
        return Err(error.value);
      }
      var result := CurrentSelection(selectLimit, excluded, |seeds|);
      return Ok(result);
    }

    method TryReconcileCandidates(seeds: seq<Seed>, timestamp: real, day: real, extra: int)
      returns (error: Option<LiveError>)
      requires Valid()
      modifies this
      ensures Valid()
      ensures match LiveSpec.ReconcileCandidates(old(View()), seeds, timestamp, day, extra)
        case Err(e) => error == Some(e) && View() == old(View())
        case Ok(t) => error == None && View() == t
    {
      ghost var before := View();
      var built := Admit(seeds, timestamp, day);
      assert View() == before;
      if built.Err? {
        return Some(built.error);
      }
      error := TryInstall(built.value, timestamp, day, extra);
    }

    method ReconcileMembership(ids: seq<int>, changed: seq<Seed>, timestamp: real, day: real, selectLimit: nat,
                               excluded: set<int>, extra: int)
      returns (r: Result<RefreshResult, LiveError>)
      requires Valid() && cfg.line.Sound()
      modifies this
      ensures Valid()
      ensures match LiveSpec.ReconcileMembership(old(View()), ids, changed, timestamp, day, extra)
        case Err(e) => r == Err(e) && View() == old(View())
        case Ok(t) => View() == t && r == Ok(SelectionResult(t, selectLimit, excluded, |ids|))
    {
      var error := TryReconcileMembership(ids, changed, timestamp, day, extra);
      if error.Some? {
        return Err(error.value);
      }
      var result := CurrentSelection(selectLimit, excluded, |ids|);
      return Ok(result);
    }

    method TryReconcileMembership(ids: seq<int>, changed: seq<Seed>, timestamp: real, day: real, extra: int)
      returns (error: Option<LiveError>)
      requires Valid()
      modifies this
      ensures Valid()
      ensures match LiveSpec.ReconcileMembership(old(View()), ids, changed, timestamp, day, extra)
        case Err(e) => error == Some(e) && View() == old(View())
        case Ok(t) => error == None && View() == t
    {
      ghost var before := View();
      var refused := CheckMembership(ids, changed);
      if refused.Some? {
        return refused;
      }
      var built := BuildReconciled(before, byId, ids, changed, timestamp, day);
      assert View() == before;
      if built.Err? {
        return Some(built.error);
      }
      error := TryInstall(built.value, timestamp, day, extra);
    }

    static method CheckMembership(ids: seq<int>, changed: seq<Seed>) returns (error: Option<LiveError>)
      ensures error ==
        if DuplicateOf(ids).Some? then Some(DuplicateCard(DuplicateOf(ids).value))
        else if DuplicateOf(Mapped(changed, SeedCard())).Some?
            then Some(DuplicateCard(DuplicateOf(Mapped(changed, SeedCard())).value))
        else if UndesiredOf(changed, ids).Some? then Some(NotDesired(UndesiredOf(changed, ids).value))
        else None
    {
      var duplicate := FindDuplicate(ids);
      if duplicate.Some? {
        return Some(DuplicateCard(duplicate.value));
      }
      var cards := SeedCards(changed);
      duplicate := FindDuplicate(cards);
      if duplicate.Some? {
        return Some(DuplicateCard(duplicate.value));
      }
      var undesired := FindUndesired(changed, ids);
      if undesired.Some? {
        return Some(NotDesired(undesired.value));
      }
      return None;
    }

    method ReplaceCandidates(seeds: seq<Seed>) returns (r: Result<nat, LiveError>)
      requires Valid()
      modifies this
      ensures Valid()
      ensures match LiveSpec.ReplaceCandidates(old(View()), seeds)
        case Err(e) => r == Err(e) && View() == old(View())
        case Ok(t) => View() == t && r == Ok(t.generation)
    {
      var built := Admit(seeds, targetTimestamp, targetDay);
      if built.Err? {
        return Err(built.error);
      }
      var predicted := PredictAt(cfg, built.value, targetTimestamp, targetDay);
      if predicted.Err? {
        return Err(predicted.error);
      }
      InstallNext(built.value, predicted.value);
      return Ok(generation);
    }

    /** Installs a universe at the session's own target time. */
    method InstallNext(cs: seq<ReferenceCandidate>, predictions: seq<Num>)
      requires InOrder(cs) && |predictions| == |cs|
      modifies this`slots, this`byId, this`generation, cs
      ensures Valid()
      ensures View() == Session(cfg, old(targetTimestamp), old(targetDay), old(retentionExtra), old(generation) + 1,
                                Activated(old(Values(cs)), predictions), Index(old(Values(cs))),
                                old(lastMembership), old(lastTransport))
    {
      InstallUniverse(cs, predictions);
      NextGeneration();
    }

    static method Start(cfg: Config, seeds: seq<Seed>, timestamp: real, day: real, selectLimit: nat)
      returns (r: Result<LivePredictionSession, LiveError>, initial: Option<RefreshResult>)
      requires cfg.line.Sound()
      ensures match LiveSpec.Start(cfg, seeds, timestamp, day)
        case Err(e) => r == Err(e)
        case Ok(s) =>
          && r.Ok? && fresh(r.value) && r.value.Valid() && r.value.View() == s
          && initial == Some(SelectionResult(s, selectLimit, {}, |seeds|))
    {
      r := TryStart(cfg, seeds, timestamp, day);
      if r.Err? {
        return r, None;
      }
      var result := r.value.CurrentSelection(selectLimit, {}, |seeds|);
      return r, Some(result);
    }

    static method TryStart(cfg: Config, seeds: seq<Seed>, timestamp: real, day: real)
      returns (r: Result<LivePredictionSession, LiveError>)
      ensures match LiveSpec.Start(cfg, seeds, timestamp, day)
        case Err(e) => r == Err(e)
        case Ok(s) => r.Ok? && fresh(r.value) && r.value.cfg == cfg && r.value.Valid() && r.value.View() == s
    {
      var built := Admit(seeds, timestamp, day);
      if built.Err? {
        return Err(built.error);
      }
      var predicted := PredictInitially(cfg, built.value);
      if predicted.Err? {
        return Err(predicted.error);
      }
      var session := new LivePredictionSession(cfg, timestamp, day, built.value, predicted.value);
      return Ok(session);
    }

    // ----- Single cards -----

    method NextGeneration()
      requires Valid()
      modifies this`generation
      ensures Valid() && View() == old(View()).(generation := old(generation) + 1)
    {
      generation := generation + 1;
    }

    method ExcludeCard(card: int) returns (r: Result<nat, LiveError>)
      requires Valid()
      modifies this`generation, slots
      ensures Valid() && slots == old(slots)
      ensures match LiveSpec.ExcludeCard(old(View()), card)
        case Err(e) => r == Err(e) && View() == old(View())
        case Ok(t) => View() == t && r == Ok(t.generation)
    {
      if card !in byId {
        return Err(UnknownCard(card));
      }
      var status := byId[card].status;
      if status == Active {
        status := Excluded;
      } else if status == PendingRefresh {
        status := ExcludedPendingRefresh;
      }
      Restatus(card, status);
      return Ok(generation);
    }

    method IncludeCard(card: int) returns (r: Result<nat, LiveError>)
      requires Valid()
      modifies this`generation, slots
      ensures Valid() && slots == old(slots)
      ensures match LiveSpec.IncludeCard(old(View()), card)
        case Err(e) => r == Err(e) && View() == old(View())
        case Ok(t) => View() == t && r == Ok(t.generation)
    {
      if card !in byId {
        return Err(UnknownCard(card));
      }
      var status := byId[card].status;
      if status == Excluded {
        status := Active;
      } else if status == ExcludedPendingRefresh {
        status := PendingRefresh;
      }
      Restatus(card, status);
      return Ok(generation);
    }

    method Restatus(card: int, status: Status)
      requires Valid() && card in byId
      modifies this`generation, slots
      ensures Valid() && slots == old(slots)
      ensures View() == LiveSpec.SetStatus(old(View()), card, status)
    {
      SetStatus(byId[card], status);
      NextGeneration();
    }

    method SetStatus(c: ReferenceCandidate, status: Status)
      requires Valid() && c in slots
      modifies c
      ensures Valid()
      ensures View() == old(View()).(slots := old(Values(slots))[c.slot := old(c.Value()).(status := status)])
    {
      ghost var values, live, slot, value := Values(slots), Live(), c.slot, c.Value();
      c.status := status;
      assert forall i :: 0 <= i < |slots| && i != slot ==> slots[i] != c;
      assert Values(slots) == values[slot := value.(status := status)];
      assert Live() == live;
    }

    method Forget(card: int)
      requires Valid() && card in byId
      modifies this`byId
      ensures Valid() && View() == old(View()).(live := old(Live()) - {card})
    {
      ghost var values, live := Values(slots), Live();
      byId := byId - {card};
      assert Values(slots) == values && Live() == live - {card};
    }

    /** Only the index forgets the card. */
    method RemoveCandidate(card: int) returns (r: Result<nat, LiveError>)
      requires Valid()
      modifies this`byId, this`generation
      ensures Valid()
      ensures match LiveSpec.RemoveCandidate(old(View()), card)
        case Err(e) => r == Err(e) && View() == old(View())
        case Ok(t) => View() == t && r == Ok(t.generation)
    {
      if card !in byId {
        return Err(UnknownCard(card));
      }
      Forget(card);
      NextGeneration();
      return Ok(generation);
    }

    method SetRetentionExtra(extra: int) returns (r: nat)
      requires Valid()
      modifies this`retentionExtra, this`generation
      ensures Valid() && View() == LiveSpec.SetRetentionExtra(old(View()), extra) && r == View().generation
    {
      ghost var values, live := Values(slots), Live();
      retentionExtra := extra;
      assert Values(slots) == values && Live() == live;
      NextGeneration();
      return generation;
    }

    // ----- Upserting -----

    /** A replacement takes over the slot and the exclusion of the card it replaces, or a new slot. */
    method UpsertOne(c: ReferenceCandidate)
      requires Valid() && c !in slots
      modifies this`slots, this`byId, c
      ensures Valid() && (forall d :: d in slots ==> d in old(slots) || d == c)
      ensures View() == LiveSpec.UpsertOne(old(View()), old(c.Value()))
    {
      var card := c.id.cardId;
      if card in byId {
        TakeOver(c, byId[card]);
      } else {
        Append(c);
      }
    }

    method TakeOver(c: ReferenceCandidate, existing: ReferenceCandidate)
      requires Valid() && c !in slots && c.id.cardId in byId && byId[c.id.cardId] == existing
      modifies this`slots, this`byId, c
      ensures Valid() && slots == old(slots)[existing.slot := c] && Live() == old(Live())
      ensures Values(slots)
          == old(Values(slots))[existing.slot := old(c.Value()).(status := UpsertStatus(existing.status),
                                                                 slot := existing.slot)]
    {
      var slot := existing.slot;
      var status := if existing.status == Excluded || existing.status == ExcludedPendingRefresh
          then ExcludedPendingRefresh
                    else PendingRefresh;
      Settle(c, status, slot);
      Replace(c);
    }

    /** Puts a settled candidate into the slot of the card it replaces. */
    method Replace(c: ReferenceCandidate)
      requires Valid() && c !in slots && c.id.cardId in byId && byId[c.id.cardId].slot == c.slot
      modifies this`slots, this`byId
      ensures Valid() && slots == old(slots)[c.slot := c] && Live() == old(Live())
      ensures Values(slots) == old(Values(slots))[c.slot := c.Value()]
    {
      ghost var values, live := Values(slots), Live();
      OthersElsewhere(byId[c.id.cardId]);
      IndexPlaces();
      Adopt(slots[c.slot := c], byId[c.id.cardId := c], live);
      assert Values(slots) == values[c.slot := c.Value()];
    }

    /** Gives a candidate outside the session its status and slot. */
    method Settle(c: ReferenceCandidate, status: Status, slot: nat)
      requires Valid() && c !in slots
      modifies c
      ensures Valid() && Values(slots) == old(Values(slots)) && Live() == old(Live())
      ensures c.Value() == old(c.Value()).(status := status, slot := slot)
      ensures forall d :: d in slots ==> d.Value() == old(d.Value())
    {
      ghost var values, live := Values(slots), Live();
      c.status := status;
      c.slot := slot;
      assert forall i :: 0 <= i < |slots| ==> slots[i] in slots && slots[i] != c;
      assert Values(slots) == values && Live() == live;
    }

    lemma OthersElsewhere(existing: ReferenceCandidate)
      requires Valid() && existing.id.cardId in byId && byId[existing.id.cardId] == existing
      ensures forall card :: card in byId && card != existing.id.cardId ==>
        Live()[card] != existing.slot && slots[Live()[card]] == byId[card]
    {
    }

    method Append(c: ReferenceCandidate)
      requires Valid() && c !in slots && c.id.cardId !in byId
      modifies this`slots, this`byId, c
      ensures Valid() && slots == old(slots) + [c] && Live() == old(Live())[c.id.cardId := |old(slots)|]
      ensures Values(slots) == old(Values(slots)) + [old(c.Value()).(status := PendingRefresh, slot := |old(slots)|)]
    {
      Settle(c, PendingRefresh, |slots|);
      AddLast(c);
    }

    /** Puts a settled candidate into a new slot. */
    method AddLast(c: ReferenceCandidate)
      requires Valid() && c !in slots && c.id.cardId !in byId && c.slot == |slots|
      modifies this`slots, this`byId
      ensures Valid() && slots == old(slots) + [c] && Live() == old(Live())[c.id.cardId := c.slot]
      ensures Values(slots) == old(Values(slots)) + [c.Value()]
    {
      ghost var values, live := Values(slots), Live();
      IndexPlaces();
      Adopt(slots + [c], byId[c.id.cardId := c], live[c.id.cardId := c.slot]);
      assert Values(slots) == values + [c.Value()];
    }

    lemma IndexPlaces()
      requires Valid()
      ensures byId.Keys == Live().Keys
      ensures forall card :: card in byId ==>
        Live()[card] < |slots| && slots[Live()[card]] == byId[card] && byId[card].id.cardId == card
    {
    }

    method UpsertCandidates(seeds: seq<Seed>) returns (r: Result<nat, LiveError>)
      requires Valid()
      modifies this
      ensures Valid()
      ensures match LiveSpec.UpsertCandidates(old(View()), seeds)
        case Err(e) => r == Err(e) && View() == old(View())
        case Ok(t) => View() == t && r == Ok(t.generation)
    {
      ghost var before := View();
      var built := Admit(seeds, targetTimestamp, targetDay);
      assert View() == before;
      if built.Err? {
        return Err(built.error);
      }
      UpsertObjects(built.value);
      return Ok(generation);
    }

    method UpsertObjects(cs: seq<ReferenceCandidate>)
      requires Valid() && InOrder(cs) && forall c :: c in cs ==> c !in slots
      modifies this`slots, this`byId, this`generation, cs
      ensures Valid()
      ensures var t := UpsertAll(old(View()), old(Values(cs)), |cs|);
        View() == t.(generation := t.generation + 1)
    {
      assert forall i, j :: 0 <= i < j < |cs| ==> cs[i] != cs[j];
      UpsertEach(cs, Values(cs));
      NextGeneration();
    }

    method UpsertEach(cs: seq<ReferenceCandidate>, ghost values: seq<Candidate>)
      requires Valid() && Awaiting(cs, values, 0)
      modifies this`slots, this`byId, cs
      ensures Valid() && View() == UpsertAll(old(View()), values, |cs|)
    {
      ghost var s := View();
      for k := 0 to |cs|
        invariant Valid() && View() == UpsertAll(s, values, k) && Awaiting(cs, values, k)
      {
        UpsertNext(cs, values, k);
      }
    }

    /** The seeds from `k` on still hold their values and have no slot. */
    ghost predicate Awaiting(cs: seq<ReferenceCandidate>, values: seq<Candidate>, k: nat)
      reads this, cs
    {
      |values| == |cs| && (forall i, j :: 0 <= i < j < |cs| ==> cs[i] != cs[j])
      && forall j :: k <= j < |cs| ==> cs[j] !in slots && cs[j].Value() == values[j]
    }

    method UpsertNext(cs: seq<ReferenceCandidate>, ghost values: seq<Candidate>, k: nat)
      requires Valid() && k < |cs| && Awaiting(cs, values, k)
      modifies this`slots, this`byId, cs[k]
      ensures Valid() && Awaiting(cs, values, k + 1)
      ensures View() == LiveSpec.UpsertOne(old(View()), values[k])
    {
      UpsertOne(cs[k]);
    }
  }
}
