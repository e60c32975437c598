/** The two stores of module states, flat and canonical, and the moves between them. */
module Materialize {
  import opened Wrappers
  import opened Lists

  /** A flat state, its storage order, its conversion, and what both forms mean. */
  datatype Codec<!F(!new), !C, !L> = Codec(storageId: F -> nat, convert: F -> Option<C>, flatMeaning: F -> L,
                                           meaning: C -> L) {
    /** Conversion keeps the meaning. */
    ghost predicate Faithful() {
      forall f :: Converted(f).Some? ==> meaning(Converted(f).value) == flatMeaning(f)
    }

    function Converted(f: F): Option<C> {
      convert(f)
    }
  }

  /** The two stores of one kind of identity. */
  datatype Pair<F, C> = Pair(flat: map<int, F>, canonical: map<int, C>) {
    predicate Disjoint() {
      flat.Keys !! canonical.Keys
    }

    function Identities(): set<int> {
      flat.Keys + canonical.Keys
    }
  }

  /** The logical state: what each identity means, wherever it is stored. */
  ghost function Logical<F(!new), C, L>(codec: Codec<F, C, L>, p: Pair<F, C>): map<int, L> {
    map id | id in p.Identities() :: if id in p.flat then codec.flatMeaning(p.flat[id])
        else codec.meaning(p.canonical[id])
  }

  lemma EmptyMeansNothing<F(!new), C, L>(codec: Codec<F, C, L>, p: Pair<F, C>)
    requires p.flat == map[] && p.canonical == map[]
    ensures Logical(codec, p) == map[]
  {
    assert p.Identities() == {};
    assert forall id :: id !in Logical(codec, p);
  }

  datatype MaterializeError = Overlap(identity: int) | Unconvertible(identity: int) | GlobalOverlap
    | GlobalUnconvertible

  // ----- Moving a list of identities -----

  /** Moves identities one by one until one does not convert; that one stays where it was. */
  function Moved<F(!new), C, L>(codec: Codec<F, C, L>, order: seq<int>, p: Pair<F, C>): (r: (Pair<F, C>, Option<int>))
    requires forall i :: 0 <= i < |order| ==> order[i] in p.flat
    requires Distinct(order)
  {
    if order == [] then (p, None)
    else
      var id := order[0];
      match codec.Converted(p.flat[id])
      case None => (p, Some(id))
      case Some(c) => Moved(codec, order[1..], Pair(p.flat - {id}, p.canonical[id := c]))
  }

  /** However far the moves get, every identity keeps its meaning and is stored once. */
  lemma {:induction false} MovesConserve<F(!new), C, L>(codec: Codec<F, C, L>, order: seq<int>, p: Pair<F, C>)
    requires codec.Faithful() && p.Disjoint() && Distinct(order)
    requires forall i :: 0 <= i < |order| ==> order[i] in p.flat
    ensures Moved(codec, order, p).0.Disjoint() && Logical(codec, Moved(codec, order, p).0) == Logical(codec, p)
  {
    if order != [] {
      var id := order[0];
      var c := codec.Converted(p.flat[id]);
      if c.Some? {
        var q := Pair(p.flat - {id}, p.canonical[id := c.value]);
        assert codec.convert(p.flat[id]) == c;
        assert Logical(codec, q) == Logical(codec, p);
        MovesConserve(codec, order[1..], q);
      }
    }
  }

  /** Exactly the identities before the first that does not convert are moved. */
  lemma {:induction false} MovesUpToFailure<F(!new), C, L>(codec: Codec<F, C, L>, order: seq<int>, p: Pair<F, C>,
                                                           k: nat)
    requires Distinct(order) && k <= |order| && forall i :: 0 <= i < |order| ==> order[i] in p.flat
    requires forall i :: 0 <= i < k ==> codec.Converted(p.flat[order[i]]).Some?
    requires k < |order| ==> codec.Converted(p.flat[order[k]]).None?
    ensures Moved(codec, order, p).1 == if k < |order| then Some(order[k]) else None
    ensures Moved(codec, order, p).0.flat == p.flat - set i | 0 <= i < k :: order[i]
  {
    var moved := set i | 0 <= i < k :: order[i];
    if k > 0 {
      var c := codec.Converted(p.flat[order[0]]);
      MovesUpToFailure(codec, order[1..], Pair(p.flat - {order[0]}, p.canonical[order[0] := c.value]), k - 1);
      var rest := set i | 0 <= i < k - 1 :: order[1..][i];
      forall id ensures id in moved <==> id == order[0] || id in rest {
        if id in moved {
          var i :| 0 <= i < k && order[i] == id;
          assert i > 0 ==> order[1..][i - 1] == id;
        }
        if id in rest {
          var i :| 0 <= i < k - 1 && order[1..][i] == id;
          assert order[i + 1] == id;
        }
      }
    } else {
      assert moved == {};
    }
  }

  // ----- One pair of stores -----

  predicate InStorageOrder<F(!new), C, L>(codec: Codec<F, C, L>, flat: map<int, F>, a: int, b: int)
    requires a in flat && b in flat
  {
    var (x, y) := (codec.storageId(flat[a]), codec.storageId(flat[b]));
    x < y || (x == y && a < b)
  }

  /** The identities of the flat store, by storage number and then by identity. */
  ghost predicate IsStorageOrder<F(!new), C, L>(codec: Codec<F, C, L>, flat: map<int, F>, order: seq<int>) {
    && (forall i :: 0 <= i < |order| ==> order[i] in flat)
    && (forall id :: id in flat ==> id in order)
    && forall i, j :: 0 <= i < j < |order| ==> InStorageOrder(codec, flat, order[i], order[j])
  }

  predicate Convertible<F(!new), C, L>(codec: Codec<F, C, L>, p: Pair<F, C>) {
    forall id :: id in p.flat ==> codec.Converted(p.flat[id]).Some?
  }

  lemma OrderIsDistinct<F(!new), C, L>(codec: Codec<F, C, L>, flat: map<int, F>, order: seq<int>)
    requires IsStorageOrder(codec, flat, order)
    ensures Distinct(order)
  {
    forall i, j | 0 <= i < j < |order| ensures order[i] != order[j] {
      assert InStorageOrder(codec, flat, order[i], order[j]);
    }
  }

  /** Success means that the flat store converts throughout, and empties it. */
  lemma MovesAllIff<F(!new), C, L>(codec: Codec<F, C, L>, order: seq<int>, p: Pair<F, C>)
    requires IsStorageOrder(codec, p.flat, order) && Distinct(order)
    ensures Moved(codec, order, p).1 == None <==> Convertible(codec, p)
    ensures Moved(codec, order, p).1 == None ==> Moved(codec, order, p).0.flat == map[]
  {
    var k := 0;
    while k < |order| && codec.Converted(p.flat[order[k]]).Some?
      invariant k <= |order| && forall i :: 0 <= i < k ==> codec.Converted(p.flat[order[i]]).Some?
    {
      k := k + 1;
    }
    MovesUpToFailure(codec, order, p, k);
    if k == |order| {
      forall id | id in p.flat ensures codec.Converted(p.flat[id]).Some? && id in set i | 0 <= i < k :: order[i] {
        var i :| 0 <= i < |order| && order[i] == id;
      }
    }
  }

  /** Inserts an identity at its place in a list that is in storage order. */
  method InsertOrdered<F(!new), C, L>(codec: Codec<F, C, L>, flat: map<int, F>, order: seq<int>, id: int)
    returns (r: seq<int>)
    requires id in flat && id !in order && (forall i :: 0 <= i < |order| ==> order[i] in flat)
    requires forall i, j :: 0 <= i < j < |order| ==> InStorageOrder(codec, flat, order[i], order[j])
    ensures forall x :: x in r <==> x in order || x == id
    ensures forall i :: 0 <= i < |r| ==> r[i] in flat
    ensures forall i, j :: 0 <= i < j < |r| ==> InStorageOrder(codec, flat, r[i], r[j])
  {
    var k := 0;
    while k < |order| && InStorageOrder(codec, flat, order[k], id)
      invariant k <= |order| && forall i :: 0 <= i < k ==> InStorageOrder(codec, flat, order[i], id)
    {
      k := k + 1;
    }
    forall j | k <= j < |order| ensures InStorageOrder(codec, flat, id, order[j]) {
      assert order[k] in order;
      if k < j {
        assert InStorageOrder(codec, flat, order[k], order[j]);
      }
    }
    r := order[..k] + [id] + order[k..];
    assert order == order[..k] + order[k..];
  }

  method SortIdentities<F(!new), C, L>(codec: Codec<F, C, L>, flat: map<int, F>) returns (order: seq<int>)
    ensures IsStorageOrder(codec, flat, order)
  {
    order := [];
    var remaining := flat.Keys;
    while remaining != {}
      invariant remaining <= flat.Keys
      invariant forall i :: 0 <= i < |order| ==> order[i] in flat
      invariant forall id :: id in order <==> id in flat && id !in remaining
      invariant forall i, j :: 0 <= i < j < |order| ==> InStorageOrder(codec, flat, order[i], order[j])
      decreases |remaining|
    {
      var id := AnyOf(remaining);
      order := InsertOrdered(codec, flat, order, id);
      remaining := remaining - {id};
    }
  }

  ghost predicate MovedAs<F(!new), C, L>(codec: Codec<F, C, L>, order: seq<int>, p: Pair<F, C>, r: Pair<F, C>,
                                         error: Option<MaterializeError>)
    requires Distinct(order) && forall i :: 0 <= i < |order| ==> order[i] in p.flat
  {
    var (q, failed) := Moved(codec, order, p);
    r == q && error == if failed.Some? then Some(Unconvertible(failed.value)) else None
  }

  // ----- What one store's outcome is -----

  /** Everything moved: what was flat stands converted in the canonical store, beside what stood there. */
  ghost predicate AllMoved<F(!new), C, L>(codec: Codec<F, C, L>, p: Pair<F, C>, r: Pair<F, C>) {
    && r.flat == map[]
    && r.canonical.Keys == p.canonical.Keys + p.flat.Keys
    && (forall id :: id in p.canonical ==> r.canonical[id] == p.canonical[id])
    && (forall id :: id in p.flat ==> codec.Converted(p.flat[id]) == Some(r.canonical[id]))
  }

  /**
   One identity does not convert: those with a smaller storage number, or the same number and a smaller identity,
   moved; the others stay.
   */
  ghost predicate MovedUpTo<F(!new), C, L>(codec: Codec<F, C, L>, p: Pair<F, C>, r: Pair<F, C>, failed: int) {
    && failed in p.flat && codec.Converted(p.flat[failed]).None?
    && r.flat.Keys <= p.flat.Keys
    && r.canonical.Keys == p.canonical.Keys + (p.flat.Keys - r.flat.Keys)
    && (forall id :: id in p.canonical ==> r.canonical[id] == p.canonical[id])
    && forall id :: id in p.flat ==>
      var number, last := codec.storageId(p.flat[id]), codec.storageId(p.flat[failed]);
      if number < last || (number == last && id < failed)
      then id !in r.flat && codec.Converted(p.flat[id]) == Some(r.canonical[id])
      else id in r.flat && r.flat[id] == p.flat[id]
  }

  /** The outcome for one pair of stores: a shared identity, the smallest, stops everything before it starts. */
  ghost predicate MapMaterialized<F(!new), C, L>(codec: Codec<F, C, L>, p: Pair<F, C>, r: Pair<F, C>,
                                                 error: Option<MaterializeError>)
  {
    match error
    case None => p.Disjoint() && AllMoved(codec, p, r)
    case Some(Overlap(id)) =>
      id in p.flat && id in p.canonical && r == p && forall other :: other in p.flat && other in p.canonical ==>
          id <= other
    case Some(Unconvertible(id)) => p.Disjoint() && MovedUpTo(codec, p, r, id)
    case Some(_) => false
  }

  ghost predicate PairMoves<F(!new), C, L>(codec: Codec<F, C, L>, p: Pair<F, C>) {
    p.Disjoint() && Convertible(codec, p)
  }

  /** The outcome for a store whose turn comes when those before it succeeded, and then for the stores after it. */
  ghost predicate InTurn<F(!new), C, L>(codec: Codec<F, C, L>, turn: bool, p: Pair<F, C>, r: Pair<F, C>,
                                        error: Option<MaterializeError>)
  {
    if turn then MapMaterialized(codec, p, r, if PairMoves(codec, p) then None else error) else r == p
  }

  /** The global state, which has no identity: a canonical one in its way stops it before its conversion does. */
  ghost predicate GlobalMaterialized<F(!new), C, L>(codec: Codec<F, C, L>, flat: Option<F>, canonical: Option<C>,
                                                    newFlat: Option<F>, newCanonical: Option<C>,
                                                    error: Option<MaterializeError>)
  {
    match (flat, canonical)
    case (None, _) => error == None && newFlat == None && newCanonical == canonical
    case (Some(_), Some(_)) => error == Some(GlobalOverlap) && newFlat == flat && newCanonical == canonical
    case (Some(f), None) =>
      if codec.Converted(f).Some?
      then error == None && newFlat == None && newCanonical == codec.Converted(f)
      else error == Some(GlobalUnconvertible) && newFlat == flat && newCanonical == None
  }

  lemma {:induction false} MovedStands<F(!new), C, L>(codec: Codec<F, C, L>, order: seq<int>, p: Pair<F, C>, k: nat)
    requires p.Disjoint() && Distinct(order) && k <= |order| && forall i :: 0 <= i < |order| ==> order[i] in p.flat
    requires forall i :: 0 <= i < k ==> codec.Converted(p.flat[order[i]]).Some?
    requires k < |order| ==> codec.Converted(p.flat[order[k]]).None?
    ensures var r := Moved(codec, order, p).0;
      && (forall id :: id in r.canonical <==> id in p.canonical || id in order[..k])
      && (forall id :: id in p.canonical ==> r.canonical[id] == p.canonical[id])
      && (forall i :: 0 <= i < k ==>
          order[i] in r.canonical && codec.Converted(p.flat[order[i]]) == Some(r.canonical[order[i]]))
  {
    if k > 0 {
      var id := order[0];
      var c := codec.Converted(p.flat[id]).value;
      var q := Pair(p.flat - {id}, p.canonical[id := c]);
      MovedStands(codec, order[1..], q, k - 1);
      var r := Moved(codec, order, p).0;
      assert order[..k] == [id] + order[1..][..k - 1];
      assert id in q.canonical && r.canonical[id] == c;
      forall i | 0 <= i < k
        ensures order[i] in r.canonical && codec.Converted(p.flat[order[i]]) == Some(r.canonical[order[i]])
      {
        if i > 0 {
          assert order[1..][i - 1] == order[i];
        }
      }
    }
  }

  lemma AllMovedStand<F(!new), C, L>(codec: Codec<F, C, L>, order: seq<int>, p: Pair<F, C>)
    requires p.Disjoint() && IsStorageOrder(codec, p.flat, order) && Distinct(order) && Convertible(codec, p)
    ensures Moved(codec, order, p).1 == None && AllMoved(codec, p, Moved(codec, order, p).0)
  {
    var r := Moved(codec, order, p).0;
    MovesAllIff(codec, order, p);
    MovedStands(codec, order, p, |order|);
    assert order[..|order|] == order;
    forall id | id in p.flat ensures codec.Converted(p.flat[id]) == Some(r.canonical[id]) {
      assert id in order;
    }
  }

  /** The identities in front of another are those that sort before it. */
  lemma InFront<F(!new), C, L>(codec: Codec<F, C, L>, flat: map<int, F>, order: seq<int>, k: nat, id: int)
    requires IsStorageOrder(codec, flat, order) && k < |order| && id in flat
    ensures id in order[..k] <==> InStorageOrder(codec, flat, id, order[k])
  {
    OrderIsDistinct(codec, flat, order);
    var i :| 0 <= i < |order| && order[i] == id;
    assert i < k ==> order[..k][i] == id && InStorageOrder(codec, flat, order[i], order[k]);
    assert i > k ==> InStorageOrder(codec, flat, order[k], order[i]);
    assert i >= k ==> id !in order[..k];
  }

  lemma FlatLeft<F(!new), C, L>(codec: Codec<F, C, L>, order: seq<int>, p: Pair<F, C>, k: nat, id: int)
    requires Distinct(order) && k < |order| && forall i :: 0 <= i < |order| ==> order[i] in p.flat
    requires forall i :: 0 <= i < k ==> codec.Converted(p.flat[order[i]]).Some?
    requires codec.Converted(p.flat[order[k]]).None?
    ensures var r := Moved(codec, order, p).0;
      (id in r.flat <==> id in p.flat && id !in order[..k]) && (id in r.flat ==> r.flat[id] == p.flat[id])
  {
    MovesUpToFailure(codec, order, p, k);
    var moved := set i | 0 <= i < k :: order[i];
    if id in order[..k] {
      var i :| 0 <= i < k && order[..k][i] == id;
      assert order[i] in moved;
    }
    if id in moved {
      var i :| 0 <= i < k && order[i] == id;
      assert order[..k][i] == id;
    }
  }

  lemma StandsInFront<F(!new), C, L>(codec: Codec<F, C, L>, p: Pair<F, C>, r: Pair<F, C>, failed: int, front: seq<int>)
    requires failed in p.flat && codec.Converted(p.flat[failed]).None?
    requires forall id :: id in r.flat <==> id in p.flat && id !in front
    requires forall id :: id in r.flat ==> r.flat[id] == p.flat[id]
    requires forall id :: id in r.canonical <==> id in p.canonical || id in front
    requires forall id :: id in p.canonical ==> r.canonical[id] == p.canonical[id]
    requires forall id :: id in front ==> id in p.flat && codec.Converted(p.flat[id]) == Some(r.canonical[id])
    requires forall id :: id in p.flat ==> (id in front <==> InStorageOrder(codec, p.flat, id, failed))
    ensures MovedUpTo(codec, p, r, failed)
  {
    forall id | id in r.flat.Keys ensures id in p.flat.Keys {
      assert id in r.flat;
    }
    forall id ensures id in r.canonical.Keys <==> id in p.canonical.Keys + (p.flat.Keys - r.flat.Keys) {
      assert id in r.flat <==> id in p.flat && id !in front;
      assert id in r.canonical <==> id in p.canonical || id in front;
    }
  }

  lemma FailedStands<F(!new), C, L>(codec: Codec<F, C, L>, order: seq<int>, p: Pair<F, C>, k: nat, r: Pair<F, C>)
    requires p.Disjoint() && IsStorageOrder(codec, p.flat, order) && Distinct(order) && k < |order|
    requires forall i :: 0 <= i < k ==> codec.Converted(p.flat[order[i]]).Some?
    requires codec.Converted(p.flat[order[k]]).None? && r == Moved(codec, order, p).0
    ensures MovedUpTo(codec, p, r, order[k])
  {
    var front := order[..k];
    MovedStands(codec, order, p, k);
    forall id
      ensures (id in r.flat <==> id in p.flat && id !in front) && (id in r.flat ==> r.flat[id] == p.flat[id])
    {
      FlatLeft(codec, order, p, k, id);
    }
    forall id | id in front ensures id in p.flat && codec.Converted(p.flat[id]) == Some(r.canonical[id]) {
      var i :| 0 <= i < k && front[i] == id;
      assert order[i] == id;
    }
    forall id | id in p.flat ensures id in front <==> InStorageOrder(codec, p.flat, id, order[k]) {
      InFront(codec, p.flat, order, k, id);
    }
    StandsInFront(codec, p, r, order[k], front);
  }

  lemma MovesMaterialize<F(!new), C, L>(codec: Codec<F, C, L>, order: seq<int>, p: Pair<F, C>, r: Pair<F, C>,
                                        error: Option<MaterializeError>)
    requires p.Disjoint() && IsStorageOrder(codec, p.flat, order) && Distinct(order)
    requires MovedAs(codec, order, p, r, error)
    ensures MapMaterialized(codec, p, r, error)
  {
    var k := 0;
    while k < |order| && codec.Converted(p.flat[order[k]]).Some?
      invariant k <= |order| && forall i :: 0 <= i < k ==> codec.Converted(p.flat[order[i]]).Some?
    {
      k := k + 1;
    }
    if k < |order| {
      MovesUpToFailure(codec, order, p, k);
      FailedStands(codec, order, p, k, r);
    } else {
      forall id | id in p.flat ensures codec.Converted(p.flat[id]).Some? {
        assert id in order;
      }
      AllMovedStand(codec, order, p);
    }
  }

  /** Checks all identities, the smallest first, before it moves any; then moves them in storage order. */
  method MaterializeMap<F(!new), C, L>(codec: Codec<F, C, L>, p: Pair<F, C>)
    returns (r: Pair<F, C>, error: Option<MaterializeError>)
    requires codec.Faithful()
    ensures error.None? <==> p.Disjoint() && Convertible(codec, p)
    ensures error.None? ==> r.flat == map[]
    ensures Logical(codec, r) == Logical(codec, p) && (p.Disjoint() ==> r.Disjoint())
    ensures !p.Disjoint() ==> r == p
    ensures p.Disjoint() ==> exists order ::
        IsStorageOrder(codec, p.flat, order) && Distinct(order) && MovedAs(codec, order, p, r, error)
    ensures MapMaterialized(codec, p, r, error)
  {
    r := p;
    var shared := p.flat.Keys * p.canonical.Keys;
    if shared != {} {
      var id := LeastOf(shared);
      assert id in shared && forall other :: other in p.flat && other in p.canonical ==> other in shared;
      return r, Some(Overlap(id));
    }
    assert forall id :: id in p.flat.Keys && id in p.canonical.Keys ==> id in shared;
    var order := SortIdentities(codec, p.flat);
    OrderIsDistinct(codec, p.flat, order);
    MovesConserve(codec, order, p);
    MovesAllIff(codec, order, p);
    r, error := MoveAll(codec, order, p);
    MovesMaterialize(codec, order, p, r, error);
  }

  method LeastOf(ids: set<int>) returns (least: int)
    requires ids != {}
    ensures least in ids && forall id :: id in ids ==> least <= id
  {
    least := AnyOf(ids);
    var remaining := ids;
    while remaining != {}
      invariant remaining <= ids && least in ids
      invariant forall id :: id in ids && id !in remaining ==> least <= id
      decreases |remaining|
    {
      var id := AnyOf(remaining);
      if id < least {
        least := id;
      }
      remaining := remaining - {id};
    }
  }

  method MoveAll<F(!new), C, L>(codec: Codec<F, C, L>, order: seq<int>, p: Pair<F, C>)
    returns (r: Pair<F, C>, error: Option<MaterializeError>)
    requires Distinct(order) && forall i :: 0 <= i < |order| ==> order[i] in p.flat
    ensures MovedAs(codec, order, p, r, error)
  {
    r := p;
    for k := 0 to |order|
      invariant forall i :: k <= i < |order| ==> order[i] in r.flat
      invariant Distinct(order[k..]) && Moved(codec, order[k..], r) == Moved(codec, order, p)
    {
      var id := order[k];
      assert order[k..][0] == id && order[k..][1..] == order[k + 1..];
      var state := r.flat[id];
      r := Pair(r.flat - {id}, r.canonical);
      var converted := codec.Converted(state);
      if converted.None? {
        r := Pair(r.flat[id := state], r.canonical);
        return r, Some(Unconvertible(id));
      }
      r := Pair(r.flat, r.canonical[id := converted.value]);
    }
    return r, None;
  }

  // ----- Storing the states of a review -----

  function Stored<F, C>(p: Pair<F, C>, id: int, state: C): Pair<F, C> {
    Pair(p.flat - {id}, p.canonical[id := state])
  }

  /** Storing replaces the meaning of one identity and of no other. */
  lemma StoringReplacesOne<F(!new), C, L>(codec: Codec<F, C, L>, p: Pair<F, C>, id: int, state: C)
    ensures Logical(codec, Stored(p, id, state)) == Logical(codec, p)[id := codec.meaning(state)]
    ensures p.Disjoint() ==> Stored(p, id, state).Disjoint()
  {
  }

  datatype ReviewStates<C> = ReviewStates(card: C, note: C, deck: C, preset: C, global: C)

  /** The logical state of the whole model. */
  datatype Whole<L> = Whole(cards: map<int, L>, notes: map<int, L>, decks: map<int, L>, presets: map<int, L>,
                            global: Option<L>)

  class NativeRnn<F(!new), C, L> {
    const codec: Codec<F, C, L>
    var cards: Pair<F, C>
    var notes: Pair<F, C>
    var decks: Pair<F, C>
    var presets: Pair<F, C>
    var flatGlobal: Option<F>
    var global: Option<C>

    constructor (codec: Codec<F, C, L>)
      ensures this.codec == codec && Disjoint() && State() == Whole(map[], map[], map[], map[], None)
    {
      this.codec := codec;
      cards, notes, decks, presets := Pair(map[], map[]), Pair(map[], map[]), Pair(map[], map[]), Pair(map[], map[]);
      flatGlobal, global := None, None;
      new;
      EmptyMeansNothing(codec, cards);
    }

    /** No identity is in both stores of its kind. */
    predicate Disjoint()
      reads this
    {
      cards.Disjoint() && notes.Disjoint() && decks.Disjoint() && presets.Disjoint()
          && (flatGlobal.None? || global.None?)
    }

    predicate AllConvertible()
      reads this
    {
      && Convertible(codec, cards) && Convertible(codec, notes) && Convertible(codec, decks)
      && Convertible(codec, presets)
      && (flatGlobal.Some? ==> codec.Converted(flatGlobal.value).Some?)
    }

    predicate FlatEmpty()
      reads this
    {
      cards.flat == map[] && notes.flat == map[] && decks.flat == map[] && presets.flat == map[] && flatGlobal.None?
    }

    ghost function GlobalState(): Option<L>
      reads this
    {
      if flatGlobal.Some? then Some(codec.flatMeaning(flatGlobal.value))
      else if global.Some? then Some(codec.meaning(global.value))
      else None
    }

    ghost function State(): Whole<L>
      reads this
    {
      Whole(Logical(codec, cards), Logical(codec, notes), Logical(codec, decks), Logical(codec, presets), GlobalState())
    }

    /** All four stores move as a whole. */
    ghost predicate IdentitiesMove()
      reads this
    {
      PairMoves(codec, cards) && PairMoves(codec, notes) && PairMoves(codec, decks) && PairMoves(codec, presets)
    }

    /**
     Success means that nothing overlapped and everything converted, and empties every flat store; success or not,
     the state is the same.
     */
    method MaterializeFlatCpuState() returns (error: Option<MaterializeError>)
      requires codec.Faithful()
      modifies this
      ensures error.None? <==> old(Disjoint() && AllConvertible())
      ensures error.None? ==> FlatEmpty()
      ensures State() == old(State()) && (old(Disjoint()) ==> Disjoint())
      ensures InTurn(codec, true, old(cards), cards, error)
      ensures InTurn(codec, old(PairMoves(codec, cards)), old(notes), notes, error)
      ensures InTurn(codec, old(PairMoves(codec, cards) && PairMoves(codec, notes)), old(decks), decks, error)
      ensures InTurn(codec, old(PairMoves(codec, cards) && PairMoves(codec, notes) && PairMoves(codec, decks)),
                     old(presets), presets, error)
      ensures if old(IdentitiesMove())
          then GlobalMaterialized(codec, old(flatGlobal), old(global), flatGlobal, global, error)
              else flatGlobal == old(flatGlobal) && global == old(global)
    {
      error := MaterializeIdentities();
      if error.Some? {
        return;
      }
      error := MaterializeGlobal();
    }

    method MaterializeIdentities() returns (error: Option<MaterializeError>)
      requires codec.Faithful()
      modifies this`cards, this`notes, this`decks, this`presets
      ensures error.None? <==> old(IdentitiesMove())
      ensures error.None? ==>
        cards.flat == map[] && notes.flat == map[] && decks.flat == map[] && presets.flat == map[]
      ensures Logical(codec, cards) == old(Logical(codec, cards)) && Logical(codec, notes) == old(Logical(codec, notes))
      ensures Logical(codec, decks) == old(Logical(codec, decks))
          && Logical(codec, presets) == old(Logical(codec, presets))
      ensures (old(cards.Disjoint()) ==> cards.Disjoint()) && (old(notes.Disjoint()) ==> notes.Disjoint())
      ensures (old(decks.Disjoint()) ==> decks.Disjoint()) && (old(presets.Disjoint()) ==> presets.Disjoint())
      ensures InTurn(codec, true, old(cards), cards, error)
      ensures InTurn(codec, old(PairMoves(codec, cards)), old(notes), notes, error)
      ensures InTurn(codec, old(PairMoves(codec, cards) && PairMoves(codec, notes)), old(decks), decks, error)
      ensures InTurn(codec, old(PairMoves(codec, cards) && PairMoves(codec, notes) && PairMoves(codec, decks)),
                     old(presets), presets, error)
    {
      error := MaterializeCardsAndNotes();
      if error.None? {
        error := MaterializeDecksAndPresets();
      }
    }

    method MaterializeDecksAndPresets() returns (error: Option<MaterializeError>)
      requires codec.Faithful()
      modifies this`decks, this`presets
      ensures error.None? <==>
          old(decks.Disjoint() && presets.Disjoint() && Convertible(codec, decks) && Convertible(codec, presets))
      ensures error.None? ==> decks.flat == map[] && presets.flat == map[]
      ensures Logical(codec, decks) == old(Logical(codec, decks))
          && Logical(codec, presets) == old(Logical(codec, presets))
      ensures (old(decks.Disjoint()) ==> decks.Disjoint()) && (old(presets.Disjoint()) ==> presets.Disjoint())
      ensures InTurn(codec, true, old(decks), decks, error)
      ensures InTurn(codec, old(PairMoves(codec, decks)), old(presets), presets, error)
    {
      decks, error := MaterializeMap(codec, decks);
      if error.Some? {
        return;
      }
      presets, error := MaterializeMap(codec, presets);
    }

    method MaterializeCardsAndNotes() returns (error: Option<MaterializeError>)
      requires codec.Faithful()
      modifies this`cards, this`notes
      ensures error.None? <==>
          old(cards.Disjoint() && notes.Disjoint() && Convertible(codec, cards) && Convertible(codec, notes))
      ensures error.None? ==> cards.flat == map[] && notes.flat == map[]
      ensures Logical(codec, cards) == old(Logical(codec, cards)) && Logical(codec, notes) == old(Logical(codec, notes))
      ensures (old(cards.Disjoint()) ==> cards.Disjoint()) && (old(notes.Disjoint()) ==> notes.Disjoint())
      ensures InTurn(codec, true, old(cards), cards, error)
      ensures InTurn(codec, old(PairMoves(codec, cards)), old(notes), notes, error)
    {
      cards, error := MaterializeMap(codec, cards);
      if error.Some? {
        return;
      }
      notes, error := MaterializeMap(codec, notes);
    }

    method MaterializeGlobal() returns (error: Option<MaterializeError>)
      requires codec.Faithful()
      modifies this`flatGlobal, this`global
      ensures error.None? <==>
          old((flatGlobal.None? || global.None?) && (flatGlobal.Some? ==> codec.Converted(flatGlobal.value).Some?))
      ensures error.None? ==> flatGlobal.None?
      ensures GlobalState() == old(GlobalState())
      ensures old(flatGlobal.None? || global.None?) ==> flatGlobal.None? || global.None?
      ensures GlobalMaterialized(codec, old(flatGlobal), old(global), flatGlobal, global, error)
    {
      if flatGlobal.Some? {
        if global.Some? {
          return Some(GlobalOverlap);
        }
        var converted := codec.Converted(flatGlobal.value);
        if converted.None? {
          return Some(GlobalUnconvertible);
        }
        global := converted;
        flatGlobal := None;
      }
      return None;
    }

    method StoreState(p: Pair<F, C>, id: int, state: C) returns (r: Pair<F, C>)
      ensures Logical(codec, r) == Logical(codec, p)[id := codec.meaning(state)] && (p.Disjoint() ==> r.Disjoint())
    {
      StoringReplacesOne(codec, p, id, state);
      return Stored(p, id, state);
    }

    /**
     Replaces exactly the four named identities and the global state; a review output that does not convert replaces
     nothing.
     */
    method StoreReviewStates(card: int, note: int, deck: int, preset: int, states: Option<ReviewStates<C>>)
      returns (ok: bool)
      modifies this
      ensures ok == states.Some?
      ensures !ok ==> State() == old(State()) && Disjoint() == old(Disjoint())
      ensures ok ==> old(Disjoint()) ==> Disjoint()
      ensures ok ==> var s, w := states.value, old(State());
        State() == Whole(w.cards[card := codec.meaning(s.card)], w.notes[note := codec.meaning(s.note)],
                         w.decks[deck := codec.meaning(s.deck)], w.presets[preset := codec.meaning(s.preset)],
                         Some(codec.meaning(s.global)))
    {
      if states.None? {
        return false;
      }
      var s := states.value;
      StoreCardAndNote(card, note, s);
      StoreDeckAndPreset(deck, preset, s);
      flatGlobal := None;
      global := Some(s.global);
      return true;
    }

    method StoreCardAndNote(card: int, note: int, s: ReviewStates<C>)
      modifies this`cards, this`notes
      ensures Logical(codec, cards) == old(Logical(codec, cards))[card := codec.meaning(s.card)]
      ensures Logical(codec, notes) == old(Logical(codec, notes))[note := codec.meaning(s.note)]
      ensures old(cards.Disjoint() && notes.Disjoint()) ==> cards.Disjoint() && notes.Disjoint()
    {
      cards := StoreState(cards, card, s.card);
      notes := StoreState(notes, note, s.note);
    }

    method StoreDeckAndPreset(deck: int, preset: int, s: ReviewStates<C>)
      modifies this`decks, this`presets
      ensures Logical(codec, decks) == old(Logical(codec, decks))[deck := codec.meaning(s.deck)]
      ensures Logical(codec, presets) == old(Logical(codec, presets))[preset := codec.meaning(s.preset)]
      ensures old(decks.Disjoint() && presets.Disjoint()) ==> decks.Disjoint() && presets.Disjoint()
    {
      decks := StoreState(decks, deck, s.deck);
      presets := StoreState(presets, preset, s.preset);
    }
  }
}
