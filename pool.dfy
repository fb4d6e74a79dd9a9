/** The pool record (models/pool.py): constructor defaults, the two list
    comprehensions the engine filters with, and the dict form. */
module Pools {
  import opened Base
  import opened Cards

  datatype Pool = Pool(
    poolId: string,
    name: string,
    poolType: string,           // permanent / event / limited
    description: string,
    cards: seq<Card>,
    featuredSsr: seq<string>,   // ids of the UP SSR cards, tracked per session
    libraryId: string)

  function DefaultLibraryId(poolId: string): string
  {
    "LIB_" + poolId
  }

  /** `Pool.__init__`: a missing card list or featured list becomes empty, and
      a missing or empty library id becomes `LIB_<pool id>`, so the library id
      is never empty. */
  function NewPool(poolId: string, name: string, poolType: string, description: string,
                   cards: Option<seq<Card>>, featuredSsr: Option<seq<string>>,
                   libraryId: Option<string>): (p: Pool)
    ensures p.poolId == poolId && p.name == name && p.poolType == poolType
    ensures p.description == description
    ensures p.cards == (if cards.Some? then cards.value else [])
    ensures p.featuredSsr == (if featuredSsr.Some? then featuredSsr.value else [])
    ensures p.libraryId != ""
    ensures libraryId.Some? && libraryId.value != "" ==> p.libraryId == libraryId.value
    ensures libraryId.None? || libraryId.value == "" ==> p.libraryId == "LIB_" + poolId
  {
    Pool(poolId, name, poolType, description,
         if cards.Some? then cards.value else [],
         if featuredSsr.Some? then featuredSsr.value else [],
         if libraryId.Some? && libraryId.value != "" then libraryId.value else DefaultLibraryId(poolId))
  }

  /** `get_cards_by_rarity`: the pool's cards of that rarity, in pool order. */
  function CardsByRarity(p: Pool, rarity: string): (r: seq<Card>)
    ensures forall i :: 0 <= i < |r| ==> r[i].rarity == rarity && r[i] in p.cards
    ensures forall i :: 0 <= i < |p.cards| && p.cards[i].rarity == rarity ==> p.cards[i] in r
  {
    Filter(p.cards, (c: Card) => c.rarity == rarity)
  }

  /** `get_featured_cards`: the pool's cards flagged as featured, in pool order. */
  function FeaturedCards(p: Pool): (r: seq<Card>)
    ensures forall i :: 0 <= i < |r| ==> r[i].isFeatured && r[i] in p.cards
    ensures forall i :: 0 <= i < |p.cards| && p.cards[i].isFeatured ==> p.cards[i] in r
  {
    Filter(p.cards, (c: Card) => c.isFeatured)
  }

  /** Order is kept: the cards of a rarity from a pool made of two parts are
      those of the first part followed by those of the second, and each card
      of that rarity appears as often as in the pool. */
  lemma CardsByRarityKeepsOrder(p: Pool, front: seq<Card>, back: seq<Card>, rarity: string, c: Card)
    requires p.cards == front + back
    ensures CardsByRarity(p, rarity) == CardsByRarity(p.(cards := front), rarity) + CardsByRarity(p.(cards := back), rarity)
    ensures multiset(CardsByRarity(p, rarity))[c] == if c.rarity == rarity then multiset(p.cards)[c] else 0
  {
    FilterAppend(front, back, (x: Card) => x.rarity == rarity);
    FilterCount(p.cards, (x: Card) => x.rarity == rarity, c);
  }

  const PoolKeys: set<string> := {"pool_id", "name", "pool_type", "description", "cards", "featured_ssr", "library_id"}

  function CardsToValues(cards: seq<Card>): (vs: seq<Value>)
    ensures |vs| == |cards|
  {
    if cards == [] then [] else [Dict(Cards.ToDict(cards[0]))] + CardsToValues(cards[1..])
  }

  function IdsToValues(ids: seq<string>): (vs: seq<Value>)
    ensures |vs| == |ids|
  {
    if ids == [] then [] else [Str(ids[0])] + IdsToValues(ids[1..])
  }

  /** `Pool.to_dict`: exactly the seven fields, cards in their dict form. */
  function ToDict(p: Pool): (d: map<string, Value>)
    ensures d.Keys == PoolKeys
    ensures d["cards"].List? && |d["cards"].items| == |p.cards|
    ensures d["featured_ssr"].List? && |d["featured_ssr"].items| == |p.featuredSsr|
  {
    map["pool_id" := Str(p.poolId), "name" := Str(p.name), "pool_type" := Str(p.poolType),
        "description" := Str(p.description), "cards" := List(CardsToValues(p.cards)),
        "featured_ssr" := List(IdsToValues(p.featuredSsr)), "library_id" := Str(p.libraryId)]
  }

  /** `[Card.from_dict(c) for c in ...]`. */
  function CardsFromValues(vs: seq<Value>): (r: Option<seq<Card>>)
    ensures r.Some? ==> |r.value| == |vs|
  {
    if vs == [] then Some([])
    else if !vs[0].Dict? then None
    else
      var c :- Cards.FromDict(vs[0].fields);
      var rest :- CardsFromValues(vs[1..]);
      Some([c] + rest)
  }

  function IdsFromValues(vs: seq<Value>): (r: Option<seq<string>>)
    ensures r.Some? ==> |r.value| == |vs|
  {
    if vs == [] then Some([])
    else if !vs[0].Str? then None
    else
      var rest :- IdsFromValues(vs[1..]);
      Some([vs[0].s] + rest)
  }

  /** `data.get('cards', [])`: a missing list is empty; `None` is not
      iterable, so it is an error, as is anything else but a list of dicts. */
  function CardsField(d: map<string, Value>): Option<seq<Card>>
  {
    if "cards" !in d then Some([])
    else if d["cards"].List? then CardsFromValues(d["cards"].items)
    else None
  }

  /** `data.get('featured_ssr', [])`, where the constructor turns `None` into `[]`. */
  function FeaturedField(d: map<string, Value>): Option<seq<string>>
  {
    if "featured_ssr" !in d || d["featured_ssr"] == Null then Some([])
    else if d["featured_ssr"].List? then IdsFromValues(d["featured_ssr"].items)
    else None
  }

  /** `Pool.from_dict`: missing description, cards and featured ids default to
      empty, a missing library id to `LIB_<pool id>`. */
  function FromDict(d: map<string, Value>): (r: Option<Pool>)
    ensures r.Some? ==> r.value.libraryId != ""
    ensures r.Some? && "description" !in d ==> r.value.description == ""
    ensures r.Some? && "cards" !in d ==> r.value.cards == []
    ensures r.Some? && "featured_ssr" !in d ==> r.value.featuredSsr == []
  {
    var poolId :- TextField(d, "pool_id");
    var name :- TextField(d, "name");
    var poolType :- TextField(d, "pool_type");
    var description :- TextField(d, "description");
    var cards :- CardsField(d);
    var featured :- FeaturedField(d);
    var libraryId :- OptionalTextField(d, "library_id");
    Some(NewPool(poolId, name, poolType, description, Some(cards), Some(featured), libraryId))
  }

  lemma {:induction false} CardsRoundTrip(cards: seq<Card>)
    requires forall i :: 0 <= i < |cards| ==> cards[i].imageUrl != ""
    ensures CardsFromValues(CardsToValues(cards)) == Some(cards)
  {
    if cards != [] {
      var vs := CardsToValues(cards);
      assert vs[0] == Dict(Cards.ToDict(cards[0])) && vs[1..] == CardsToValues(cards[1..]);
      Cards.RoundTrip(cards[0]);
      CardsRoundTrip(cards[1..]);
      assert [cards[0]] + cards[1..] == cards;
    }
  }

  lemma {:induction false} IdsRoundTrip(ids: seq<string>)
    ensures IdsFromValues(IdsToValues(ids)) == Some(ids)
  {
    if ids != [] {
      var vs := IdsToValues(ids);
      assert vs[0] == Str(ids[0]) && vs[1..] == IdsToValues(ids[1..]);
      IdsRoundTrip(ids[1..]);
      assert [ids[0]] + ids[1..] == ids;
    }
  }

  /** Decoding the dict form of a pool gives back the pool, for every pool
      whose library id and card image urls are set (as the constructors
      guarantee). */
  lemma RoundTrip(p: Pool)
    requires p.libraryId != ""
    requires forall i :: 0 <= i < |p.cards| ==> p.cards[i].imageUrl != ""
    ensures FromDict(ToDict(p)) == Some(p)
  {
    var d := ToDict(p);
    assert TextField(d, "pool_id") == Some(p.poolId);
    assert TextField(d, "name") == Some(p.name);
    assert TextField(d, "pool_type") == Some(p.poolType);
    assert TextField(d, "description") == Some(p.description);
    CardsRoundTrip(p.cards);
    assert CardsField(d) == Some(p.cards);
    IdsRoundTrip(p.featuredSsr);
    assert FeaturedField(d) == Some(p.featuredSsr);
    assert OptionalTextField(d, "library_id") == Some(Some(p.libraryId));
  }

  /** A dict of pools keyed by pool id, with its keys in insertion order
      (the order `list(pools.keys())` and `Object.keys(pools)` report). */
  datatype PoolTable = PoolTable(pools: map<string, Pool>, order: seq<string>)
  {
    ghost predicate Valid()
    {
      && (forall i, j :: 0 <= i < j < |order| ==> order[i] != order[j])
      && (forall k :: k in pools <==> k in order)
      && (forall k :: k in pools ==> pools[k].poolId == k)
    }
  }

  const EmptyTable := PoolTable(map[], [])

  function IdsOf(ps: seq<Pool>): (ids: seq<string>)
    ensures |ids| == |ps|
    ensures forall i :: 0 <= i < |ps| ==> ids[i] == ps[i].poolId
  {
    if ps == [] then [] else IdsOf(ps[..|ps| - 1]) + [ps[|ps| - 1].poolId]
  }

  /** `pools[p.pool_id] = p`: a new id goes to the end of the key order, a
      known id keeps its place and gets the new pool. */
  function Insert(t: PoolTable, p: Pool): (r: PoolTable)
    requires t.Valid()
    ensures r.Valid()
  {
    PoolTable(t.pools[p.poolId := p], if p.poolId in t.pools then t.order else t.order + [p.poolId])
  }

  /** Inserting a list of pools, one after the other. */
  function InsertAll(t: PoolTable, ps: seq<Pool>): (r: PoolTable)
    requires t.Valid()
    ensures r.Valid()
  {
    if ps == [] then t else Insert(InsertAll(t, ps[..|ps| - 1]), ps[|ps| - 1])
  }

  /** No pool after the `i`-th in the list has its id: the `i`-th is the
      last occurrence of that id. */
  predicate LastOfId(ps: seq<Pool>, i: int)
    requires 0 <= i < |ps|
  {
    forall j :: i < j < |ps| ==> ps[j].poolId != ps[i].poolId
  }

  /** After inserting a list of pools the table holds the old ids and the
      listed ones; an id the list does not mention keeps its pool, the last
      listed pool is stored under its id, and the old key order is a prefix
      of the new one. */
  lemma {:induction false} InsertAllEffect(t: PoolTable, ps: seq<Pool>)
    requires t.Valid()
    ensures forall k :: k in InsertAll(t, ps).pools <==> k in t.pools || k in IdsOf(ps)
    ensures forall k :: k in t.pools && k !in IdsOf(ps) ==> InsertAll(t, ps).pools[k] == t.pools[k]
    ensures ps != [] ==> InsertAll(t, ps).pools[ps[|ps| - 1].poolId] == ps[|ps| - 1]
    ensures |t.order| <= |InsertAll(t, ps).order| && InsertAll(t, ps).order[..|t.order|] == t.order
  {
    if ps != [] {
      var front := ps[..|ps| - 1];
      InsertAllEffect(t, front);
      assert IdsOf(ps) == IdsOf(front) + [ps[|ps| - 1].poolId];
    }
  }

  /** Every listed id holds the last pool listed with it. */
  lemma {:induction false} InsertAllStores(t: PoolTable, ps: seq<Pool>)
    requires t.Valid()
    ensures forall i :: 0 <= i < |ps| && LastOfId(ps, i) ==>
              ps[i].poolId in InsertAll(t, ps).pools && InsertAll(t, ps).pools[ps[i].poolId] == ps[i]
  {
    if ps != [] {
      var front := ps[..|ps| - 1];
      var last := ps[|ps| - 1];
      InsertAllStores(t, front);
      var r := InsertAll(t, front);
      assert InsertAll(t, ps).pools == r.pools[last.poolId := last];
      forall i | 0 <= i < |ps| && LastOfId(ps, i)
        ensures ps[i].poolId in InsertAll(t, ps).pools && InsertAll(t, ps).pools[ps[i].poolId] == ps[i]
      {
        if i < |front| {
          assert front[i] == ps[i];
          assert LastOfId(front, i) by {
            forall j | i < j < |front|
              ensures front[j].poolId != front[i].poolId
            {
              assert front[j] == ps[j];
            }
          }
          assert last.poolId != ps[i].poolId;
        }
      }
    }
  }
}
